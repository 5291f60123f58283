/** The page that ties the parts together: it owns the session, loading and
    microphone flags, keeps the latest user expressions, and derives a
    demonstration emotion vector from them. */
module Layout {
  import opened Common
  import opened Emotions
  import opened FaceTypes
  import FaceTracking
  import opened WebSocket

  /** handleUserExpressionChange's emotion vector, built at time `now`. */
  function SynthesizeEmotion(x: FaceExpressions, now: int): (e: EmotionData)
    ensures e.happy == x.smiling && e.disgusted == 0.1 && e.timestamp == now
    ensures e.sad == 0.7 <==> x.mouthOpen > 0.5 && x.smiling < 0.3
    ensures e.sad != 0.7 ==> e.sad == 0.2
    ensures e.angry == 0.6 <==> x.eyebrowsRaised < -0.3
    ensures e.angry != 0.6 ==> e.angry == 0.1
    ensures e.fearful == 0.5 <==> x.eyesOpen > 0.8 && x.eyebrowsRaised > 0.5
    ensures e.fearful != 0.5 ==> e.fearful == 0.1
    ensures e.surprised == 0.8 <==> x.eyebrowsRaised > 0.7
    ensures e.surprised != 0.8 ==> e.surprised == 0.1
  {
    EmotionData(
      x.smiling,
      if x.mouthOpen > 0.5 && x.smiling < 0.3 then 0.7 else 0.2,
      if x.eyebrowsRaised < -0.3 then 0.6 else 0.1,
      if x.eyesOpen > 0.8 && x.eyebrowsRaised > 0.5 then 0.5 else 0.1,
      0.1,
      if x.eyebrowsRaised > 0.7 then 0.8 else 0.1,
      1.0 - (x.smiling + Max(x.eyebrowsRaised, 0.0)),
      now)
  }

  /** neutral is not clamped: it never exceeds 1 for a non-negative smile,
      and it is negative exactly when smile plus raised brows pass 1. */
  lemma NeutralUnclamped(x: FaceExpressions, now: int)
    ensures x.smiling >= 0.0 ==> SynthesizeEmotion(x, now).neutral <= 1.0
    ensures SynthesizeEmotion(x, now).neutral < 0.0 <==> x.smiling + Max(x.eyebrowsRaised, 0.0) > 1.0
  {
  }

  /** Fed by the landmark tracker (all scalars in range), `angry` is always
      0.1 because raised brows are never negative, and neutral stays in
      [-1, 1]. */
  lemma SynthesisFromTracker(x: FaceExpressions, now: int)
    requires FaceTracking.InExpressionRange(x)
    ensures var e := SynthesizeEmotion(x, now);
            e.angry == 0.1 && -1.0 <= e.neutral <= 1.0 && 0.0 <= e.happy <= 1.0
  {
  }

  /** A face the landmark tracker can report (smile 0.8, brows 0.32, both
      within its [0, 1] ranges) already drives neutral below zero. */
  lemma NegativeNeutralReachable(now: int)
    ensures SynthesizeEmotion(FaceExpressions(0.9, 0.0, 0.8, 0.32, 0.0, 0.0), now).neutral == -0.12
  {
  }

  /** The vector the expression callback builds, if any: only for present
      expressions while the session is active and connected. */
  function SynthesizedFor(x: Option<FaceExpressions>, sessionActive: bool, connected: bool, now: int): (r: Option<EmotionData>)
    ensures r.Some? <==> x.Some? && sessionActive && connected
    ensures r.Some? ==> r.value.happy == x.value.smiling && r.value.timestamp == now
  {
    if x.Some? && sessionActive && connected then Some(SynthesizeEmotion(x.value, now)) else None
  }

  class SessionLayout {
    var sessionActive: bool
    var isLoading: bool
    var isMicEnabled: bool
    var userExpressions: Option<FaceExpressions>
    var awaitingConnection: bool  // the start path is in its one-second wait
    const ws: SocketSession

    ghost predicate Valid()
      reads this, ws
    {
      ws.Valid() && (awaitingConnection ==> isLoading && !sessionActive)
    }

    constructor (ws: SocketSession)
      requires ws.Valid()
      ensures Valid() && this.ws == ws
      ensures !sessionActive && !isLoading && isMicEnabled && userExpressions == None && !awaitingConnection
    {
      this.ws := ws;
      sessionActive := false;
      isLoading := false;
      isMicEnabled := true;
      userExpressions := None;
      awaitingConnection := false;
    }

    /** handleToggleSession up to its first wait, or to its end when it does
        not wait. Starting while disconnected calls connect and then waits;
        starting while connected activates at once; stopping deactivates and
        then disconnects. */
    method ToggleSession()
      requires Valid() && !awaitingConnection
      modifies this, ws
      ensures Valid()
      ensures isMicEnabled == old(isMicEnabled) && userExpressions == old(userExpressions)
      ensures ws.reconnectAttempts == old(ws.reconnectAttempts) && ws.emitted == old(ws.emitted)
      ensures ws.scheduledRetries == old(ws.scheduledRetries)
      ensures ws.pendingReads == old(ws.pendingReads)
      ensures ws.socketsOpened == old(ws.socketsOpened) + (if !old(sessionActive) && !old(ws.isConnected) then 1 else 0)
      ensures !old(sessionActive) && old(ws.isConnected) ==>
        sessionActive && !isLoading && !awaitingConnection && unchanged(ws)
      ensures !old(sessionActive) && !old(ws.isConnected) ==>
        && !sessionActive && isLoading && awaitingConnection
        && ws.socket == Some(Socket(old(ws.socketsOpened), false))
        && ws.chatMessages == old(ws.chatMessages) && ws.emotionData == old(ws.emotionData)
      ensures old(sessionActive) ==>
        && !sessionActive && !isLoading && !awaitingConnection
        && (old(ws.socket).Some? ==> ws.socket == None && !ws.isConnected && ws.chatMessages == [] && ws.emotionData == None)
        && (old(ws.socket).None? ==> unchanged(ws))
    {
      isLoading := true;
      if !sessionActive {
        if !ws.isConnected {
          ws.Connect();
          awaitingConnection := true;
          return;
        }
        sessionActive := true;
      } else {
        sessionActive := false;
        ws.Disconnect();
      }
      isLoading := false;
    }

    /** The end of the one-second wait: the session becomes active whether or
        not the connection came up, and loading ends. */
    method ResumeAfterDelay()
      requires Valid() && awaitingConnection
      modifies this
      ensures Valid()
      ensures sessionActive && !isLoading && !awaitingConnection
      ensures isMicEnabled == old(isMicEnabled) && userExpressions == old(userExpressions)
    {
      sessionActive := true;
      awaitingConnection := false;
      isLoading := false;
    }

    method ToggleMic()
      requires Valid()
      modifies this
      ensures Valid()
      ensures isMicEnabled == !old(isMicEnabled)
      ensures sessionActive == old(sessionActive) && isLoading == old(isLoading)
      ensures awaitingConnection == old(awaitingConnection) && userExpressions == old(userExpressions)
    {
      isMicEnabled := !isMicEnabled;
    }

    /** handleUserExpressionChange at time `now`: the expressions are always
        stored; the derived vector (only logged) is returned. */
    method OnExpressionChange(x: Option<FaceExpressions>, now: int) returns (derived: Option<EmotionData>)
      requires Valid()
      modifies this
      ensures Valid()
      ensures userExpressions == x
      ensures derived == SynthesizedFor(x, old(sessionActive), ws.isConnected, now)
      ensures sessionActive == old(sessionActive) && isLoading == old(isLoading)
      ensures isMicEnabled == old(isMicEnabled) && awaitingConnection == old(awaitingConnection)
    {
      userExpressions := x;
      derived := SynthesizedFor(x, sessionActive, ws.isConnected, now);
    }
  }
}
