# UnTherapy face-and-emotion front end, modelled in Dafny

This project models the decision logic of the UnTherapy web client. The
client watches the user's face through the camera and derives expression
scalars from it. While a session is active and the socket is connected, it
turns those scalars into an emotion vector, which it only logs. It draws a
cartoon of the user. It also draws an animated AI avatar that reacts to the
emotion vectors the backend pushes over the socket (`emotion_update`), and it
shows the latest such vector in a meter.

Each source file in the core has its own module:

| module | source file | form |
|---|---|---|
| `AIAvatar` | src/components/AIAvatar.tsx | pure functions: argmax, lookup table, drawing decisions. The mutable `expression` state is a class. |
| `UserAvatar` | frontend/src/components/UserAvatar.tsx | pure drawing decisions, the camera effect and the frame guard |
| `EmotionMeter` | src/components/EmotionMeter.tsx | pure: chart options, dominant entry, bars, view |
| `Layout` | src/components/UnTherapyLayout.tsx | pure emotion synthesis. The session state is a class holding a socket session. |
| `FaceTracking` | src/hooks/useFaceTracking.ts | pure expression derivation. The tracker state is a class. |
| `SimulatedTracking` | frontend/src/hooks/useFaceTracking.ts | landmark generation as a loop. The tracker with its frame counter is a class. |
| `WebSocket` | frontend/src/hooks/useWebSocket.ts | the socket session is a class. Backoff and audio payload extraction are functions. |
| `Camera` | frontend/src/hooks/useCamera.ts | the camera device is a class. Error classification is a function. |

Three modules are shared:
- `Common` holds `Option`, a thrown value, decimal rendering of naturals and substring search.
- `Emotions` holds the emotion vector.
- `FaceTypes` holds keypoints, boxes and expression vectors.

Scores are `real`. `Math.round` is `(x + 0.5).Floor`. Times are integers in milliseconds.

Some inputs come from outside the program. Each becomes a method parameter:
- the clock;
- the detector's answer;
- the camera permission outcome;
- the random keypoint positions;
- the simulated expression values.

## Behaviour worth noting

- **AI avatar ties.** The AI avatar's `reduce` keeps the current candidate
  only when the next score is strictly greater. A tie therefore goes to the
  later key, and an all-equal vector gives `neutral` (`AIAvatar.TieGoesToLaterKey`,
  `AIAvatar.AllEqualGivesNeutral`). The meter's reduce compares the other way
  round, so there a tie goes to the earliest key (`EmotionMeter.TieGoesToEarliest`,
  `EmotionMeter.DominantIsFirstMaximum`).
- **Frame throttling.** Only the simulated tracker in
  frontend/src/hooks/useFaceTracking.ts lets one frame in three through. The
  landmark-model tracker in src/hooks/useFaceTracking.ts handles every frame
  it is given.
- **Head tilt.** The cartoon compares `headTilt * 0.1` with 0.02, so the
  deadband is 0.2 on `headTilt`. Nothing is drawn between saving and
  restoring the rotated context, so the drawn face never depends on
  `headTilt` (`UserAvatar.HeadTiltHasNoEffect`).
- **Neutral score.** The synthesized `neutral` score is not clamped. It goes
  negative whenever `smiling + max(eyebrowsRaised, 0) > 1`. The landmark
  tracker's in-range outputs can reach that (`Layout.NegativeNeutralReachable`).

## Model

| member | source | states |
|---|---|---|
| Common.NatToString | frontend/src/hooks/useFaceTracking.ts:99 | The decimal rendering of a natural is a non-empty digit string. It has one digit exactly when the number is below 10. |
| Common.DecimalRoundTrip | frontend/src/hooks/useFaceTracking.ts:99 | Reading the rendered digits back gives the original number. |
| Common.NatToStringInjective | frontend/src/hooks/useWebSocket.ts:80 | Different numbers render to different strings, so message ids built from different clock readings differ. |
| Common.Contains | frontend/src/hooks/useCamera.ts:59-61 | A pattern longer than the text never occurs in it. |
| Common.ContainsIffOccurs | frontend/src/hooks/useCamera.ts:59-61 | The recursive substring test holds exactly when the pattern occurs at some index of the text. |
| AIAvatar.Reduce | src/components/AIAvatar.tsx:37-39 | The reduce's result is a maximum over the keys. No later key reaches that score. |
| AIAvatar.LastMaxUnique | src/components/AIAvatar.tsx:37-39 | At most one index is the last maximum, so the reduce's answer is determined. |
| AIAvatar.DominantEmotion | src/components/AIAvatar.tsx:37-41 | The dominant emotion's score is at least every other emotion's score. |
| AIAvatar.DominantIsLastMaximum | src/components/AIAvatar.tsx:37-39 | The dominant emotion is the last key, in key order, that holds the maximum. |
| AIAvatar.AllEqualGivesNeutral | src/components/AIAvatar.tsx:37-39 | An all-equal vector gives `neutral`, the last key. |
| AIAvatar.TieGoesToLaterKey | src/components/AIAvatar.tsx:37-39 | When happy and surprised tie above the rest, surprised, the later key, wins. |
| AIAvatar.LookFor | src/components/AIAvatar.tsx:45-87 | The lookup keeps brows and tilt in [-1,1]. The mouth smiles exactly for happy and is concerned exactly for sad and fearful. |
| AIAvatar.DefaultLook | src/components/AIAvatar.tsx:81-86 | Neutral and disgusted, which have no entry of their own, give the default look: brows at 0.1, no tilt, and a speaking mouth exactly when the speaking flag is set. |
| AIAvatar.UpdateAIExpression | src/components/AIAvatar.tsx:36-93 | An update keeps eyeOpenness and blinkTimer. It yields an in-range record whose mouth smiles exactly when the dominant emotion is happy. |
| AIAvatar.HappyVectorSmiles | src/components/AIAvatar.tsx:37-52 | A vector led by happy gives a smiling mouth, brows at 0.3 and a tilt of 0.1. |
| AIAvatar.MouthDrawingFor | src/components/AIAvatar.tsx:228-253 | The mouth figure depends on the shape alone, and the shape can be read back from the figure. |
| AIAvatar.MouthDrawingDistinguishesShapes | src/components/AIAvatar.tsx:228-253 | Two shapes drawn with the same mouth figure are the same shape. |
| AIAvatar.DrawAIAvatar | src/components/AIAvatar.tsx:132-253 | Both eyes look the same. They are closed exactly within 150 ms after the blink timer. The brow offset stays within [-8,8] and the rotation within [-0.15,0.15]. The drawn mouth is the record's mouth shape. |
| AIAvatar.BlinkWindowAfterReset | src/components/AIAvatar.tsx:152 | After a blink at time t, the eyes are closed exactly while now - t < 150, whatever else the record holds. |
| AIAvatar.AvatarState.constructor | src/components/AIAvatar.tsx:27-33 | The initial record: eyes open, mouth closed, level brows and head, blink timer 0. |
| AIAvatar.AvatarState.OnEmotionData | src/components/AIAvatar.tsx:96-100 | A present vector updates the record. An absent one leaves it unchanged. |
| AIAvatar.AvatarState.Blink | src/components/AIAvatar.tsx:103-112 | A blink sets only the blink timer. |
| Camera.ClassifyCameraError | frontend/src/hooks/useCamera.ts:54-63 | The raw text is the Error's message, or "Failed to access camera" for anything else. A raw text containing "Permission denied" gives the permission text. Otherwise one containing "not found" gives the no-camera text. Otherwise the raw text is shown. |
| Camera.PermissionWinsOverNotFound | frontend/src/hooks/useCamera.ts:59-62 | A message containing both "Permission denied" and "not found" is reported as a permission problem. |
| Camera.ClassificationCases | frontend/src/hooks/useCamera.ts:54-63 | The reported error is the permission text, else the no-camera text, else the raw message, following the two substring tests in that order. |
| Camera.NonErrorGivesDefault | frontend/src/hooks/useCamera.ts:54 | A thrown value that is not an Error is reported as "Failed to access camera". |
| Camera.CameraDevice.constructor | frontend/src/hooks/useCamera.ts:14-18 | No stream, not streaming, no error. |
| Camera.CameraDevice.BeginStart | frontend/src/hooks/useCamera.ts:20-25 | Starting clears the error before the media request is made, so no error shows while the request is pending. Nothing else changes. |
| Camera.CameraDevice.CompleteStart | frontend/src/hooks/useCamera.ts:25-63 | A granted request stores the stream. When a video element is mounted, it attaches the stream there and starts streaming. The error is left as it stands. A refused request sets the classified error and changes nothing else. |
| Camera.CameraDevice.StopCamera | frontend/src/hooks/useCamera.ts:67-82 | Stopping stops the held stream's tracks once and clears stream, video source and streaming. Stopping again changes nothing. |
| Camera.CameraDevice.CaptureFrame | frontend/src/hooks/useCamera.ts:84-106 | A frame exists exactly when the video and canvas are attached, the camera is streaming and a context is available. A frame has the video's dimensions. |
| UserAvatar.DrawCartoonAvatar | frontend/src/components/UserAvatar.tsx:81-195 | A face is drawn exactly when expressions exist. Both eyes and both brows are drawn alike. |
| UserAvatar.EyesFollowThreshold | frontend/src/components/UserAvatar.tsx:105-134 | Eyes are open circles exactly when eyesOpen > 0.3. Opening them wider does not close them. |
| UserAvatar.MouthPriority | frontend/src/components/UserAvatar.tsx:161-183 | An open mouth takes priority over a smile, and a smile over the neutral line. |
| UserAvatar.OpenMouthHeight | frontend/src/components/UserAvatar.tsx:170-174 | The open mouth's vertical radius is 8 + 10 * mouthOpen. |
| UserAvatar.BrowsLiftTogether | frontend/src/components/UserAvatar.tsx:136-153 | Both brows sit 10 * eyebrowsRaised above the 115 baseline. |
| UserAvatar.TiltRotation | frontend/src/components/UserAvatar.tsx:185-187 | A rotation is computed exactly when abs(headTilt) > 0.2. |
| UserAvatar.HeadTiltHasNoEffect | frontend/src/components/UserAvatar.tsx:185-194 | The drawn face is the same for every headTilt. |
| UserAvatar.CameraCommandFor | frontend/src/components/UserAvatar.tsx:44-50 | The effect starts the camera exactly when the session is active and the camera is not streaming. It stops the camera exactly when the session is inactive and the camera is streaming. |
| UserAvatar.CameraFollowsSession | frontend/src/components/UserAvatar.tsx:44-50 | After a stop, or after a start that succeeds, the camera streams exactly when the session is active. |
| UserAvatar.FrameForTracker | frontend/src/components/UserAvatar.tsx:53-65 | A frame reaches the tracker exactly when the camera streams, the model is loaded and a frame was captured. |
| EmotionMeter.Entries | src/components/EmotionMeter.tsx:37-44 | The listed emotions are pairwise distinct and are exactly the emotions other than disgusted. Each entry carries its own emotion's score. |
| EmotionMeter.ChartOptionsFor | src/components/EmotionMeter.tsx:32-90 | With no data there is no chart. With data there are six axes with maximum 1, named in display order, and the values are the scores in that order. |
| EmotionMeter.ChartOmitsDisgusted | src/components/EmotionMeter.tsx:37-44 | No chart axis is disgusted. |
| EmotionMeter.FirstMax | src/components/EmotionMeter.tsx:129-131 | The reduce's result is a maximum. No earlier entry reaches that score. |
| EmotionMeter.FirstMaxUnique | src/components/EmotionMeter.tsx:129-131 | At most one index is the first maximum. |
| EmotionMeter.DominantEntry | src/components/EmotionMeter.tsx:117-132 | There is a dominant entry exactly when data exists. It is a displayed emotion (never disgusted) whose score is the largest displayed score. |
| EmotionMeter.DominantIsFirstMaximum | src/components/EmotionMeter.tsx:129-131 | The highlighted entry is the first entry, in display order, that holds the largest score. |
| EmotionMeter.TieGoesToEarliest | src/components/EmotionMeter.tsx:129-131 | When all displayed scores are equal, happy, the first one, is dominant. |
| EmotionMeter.DisgustedIgnored | src/components/EmotionMeter.tsx:120-127 | Changing the disgusted score changes neither the dominant entry nor the chart. |
| EmotionMeter.Round | src/components/EmotionMeter.tsx:207 | The rounded value is within half a unit of its input, rounding halves up. |
| EmotionMeter.Bars | src/components/EmotionMeter.tsx:189-210 | Six bars in display order. Each bar's width is 100 times its score, and its label is that width rounded. |
| EmotionMeter.View | src/components/EmotionMeter.tsx:134-210 | The placeholder shows exactly when there is no data. Otherwise the meter shows the dominant entry, its rounded percentage, the chart and the six bars. |
| Layout.SynthesizeEmotion | src/components/UnTherapyLayout.tsx:72-81 | Each synthesized score takes its raised value exactly when its expression condition holds, and its base value otherwise. Happy is the smile, disgusted is 0.1 and the timestamp is the clock. |
| Layout.NeutralUnclamped | src/components/UnTherapyLayout.tsx:78 | Neutral is at most 1 for a non-negative smile. It is negative exactly when smile + max(brows, 0) > 1. |
| Layout.SynthesisFromTracker | src/components/UnTherapyLayout.tsx:72-81 | For in-range tracker output, angry is always 0.1 and neutral lies in [-1,1]. |
| Layout.NegativeNeutralReachable | src/components/UnTherapyLayout.tsx:78 | A smile of 0.8 with brows at 0.32 gives neutral -0.12. |
| Layout.SynthesizedFor | src/components/UnTherapyLayout.tsx:66-81 | A vector is produced exactly when expressions exist, the session is active and the socket is connected. |
| Layout.SessionLayout.constructor | src/components/UnTherapyLayout.tsx:13-16 | Session off, not loading, microphone on, no expressions. |
| Layout.SessionLayout.ToggleSession | src/components/UnTherapyLayout.tsx:28-59 | Starting with a connected socket activates the session at once. Starting without a connection calls connect and waits, still loading. Stopping disconnects and deactivates. The microphone and the expressions are untouched. On every path, the socket's attempt count, emitted events, pending audio reads and scheduled retries are untouched. The count of sockets opened rises by one exactly when starting without a connection. |
| Layout.SessionLayout.ResumeAfterDelay | src/components/UnTherapyLayout.tsx:37-58 | After the wait, the session is active and loading ends. |
| Layout.SessionLayout.ToggleMic | src/components/UnTherapyLayout.tsx:61-64 | Only the microphone flag flips. |
| Layout.SessionLayout.OnExpressionChange | src/components/UnTherapyLayout.tsx:66-86 | The expressions are always stored. The synthesized vector is returned under the session and connection guard; the source only logs it. |
| FaceTracking.CalculateExpressions | src/hooks/useFaceTracking.ts:74-127 | A result exists exactly when the face has more than 454 keypoints. Every result lies in the normalised ranges. |
| FaceTracking.ReadsOnlyListedKeypoints | src/hooks/useFaceTracking.ts:78-114 | Two faces that agree on the fourteen keypoints read give the same expressions. |
| FaceTracking.EyesOpenSaturates | src/hooks/useFaceTracking.ts:81-89 | An average eyelid gap of 20 or more gives eyesOpen = 1. |
| FaceTracking.FaceTracker.constructor | src/hooks/useFaceTracking.ts:41-44 | No landmarks, no expressions, model not loaded, no error. |
| FaceTracking.FaceTracker.InitializeModel | src/hooks/useFaceTracking.ts:47-72 | A ready detector marks the model loaded and clears the error. A failed load records its message, or a default one, and leaves the loaded flag as it was. |
| FaceTracking.FaceTracker.ProcessFrame | src/hooks/useFaceTracking.ts:129-179 | Nothing changes without a ready detector or when detection fails. No face clears both landmarks and expressions. A face sets the landmarks to the first face. Expressions change only when the derivation succeeds. The error is never set. |
| SimulatedTracking.PointNamesDistinct | frontend/src/hooks/useFaceTracking.ts:99 | The 468 keypoint names are pairwise distinct. |
| SimulatedTracking.SimulatedBox | frontend/src/hooks/useFaceTracking.ts:82-112 | The box is a square of side 0.6 * min(width, height), centred on the frame. |
| SimulatedTracking.GenerateSimulatedLandmarks | frontend/src/hooks/useFaceTracking.ts:81-114 | 468 keypoints, the i-th at its placement and named `point_i`, with the centred box. |
| SimulatedTracking.OneInThree | frontend/src/hooks/useFaceTracking.ts:122-127 | Of any three consecutive counter values, exactly one is let through. |
| SimulatedTracking.AdmittedCount | frontend/src/hooks/useFaceTracking.ts:122-127 | Of n calls starting at counter c, exactly (c+n)/3 - c/3 are processed. |
| SimulatedTracking.SimulatedTracker.constructor | frontend/src/hooks/useFaceTracking.ts:42-46 | Counter 0, no landmarks, no expressions, model not loaded, no error. |
| SimulatedTracking.SimulatedTracker.InitializeModel | frontend/src/hooks/useFaceTracking.ts:48-63 | The model becomes loaded and the error is cleared. |
| SimulatedTracking.SimulatedTracker.ProcessFrame | frontend/src/hooks/useFaceTracking.ts:116-147 | A loaded tracker always advances the counter. On every third call it sets the simulated expressions and fresh landmarks: 468 keypoints, the i-th at its placement and named `point_i`, with the centred box. Otherwise nothing else changes. |
| WebSocket.RetryDelays | frontend/src/hooks/useWebSocket.ts:59-65 | At most five retries are scheduled. The k-th waits 2000 * (k+1) ms. |
| WebSocket.AudioPayload | frontend/src/hooks/useWebSocket.ts:122 | There is a payload exactly when the data URL has a comma. The payload contains no comma. |
| WebSocket.CommaIndexOfPrefixed | frontend/src/hooks/useWebSocket.ts:122 | The split finds the first comma after a comma-free header. |
| WebSocket.AudioPayloadRoundTrip | frontend/src/hooks/useWebSocket.ts:122 | A header, a comma and a comma-free payload give back the payload, whatever follows a second comma. |
| WebSocket.SocketSession.constructor | frontend/src/hooks/useWebSocket.ts:33-37 | No socket, not connected, no data, no messages, no attempts. |
| WebSocket.SocketSession.Connect | frontend/src/hooks/useWebSocket.ts:40-89 | A connected session is left unchanged. Otherwise a fresh, unconnected socket replaces the old one. |
| WebSocket.SocketSession.OnConnect | frontend/src/hooks/useWebSocket.ts:48-52 | The session becomes connected and the attempt count resets to 0. |
| WebSocket.SocketSession.OnTransportDisconnect | frontend/src/hooks/useWebSocket.ts:54-57 | The session becomes disconnected. The attempt count is kept. |
| WebSocket.SocketSession.OnConnectError | frontend/src/hooks/useWebSocket.ts:59-65 | Below five attempts, the count rises by one and a retry is scheduled after 2000 * count ms. At five, nothing is scheduled. The valid session keeps its retries equal to the backoff schedule. |
| WebSocket.SocketSession.OnEmotionUpdate | frontend/src/hooks/useWebSocket.ts:68-70 | The latest emotion vector replaces the previous one. |
| WebSocket.SocketSession.OnChatMessage | frontend/src/hooks/useWebSocket.ts:73-75 | The message is appended to the chat. |
| WebSocket.SocketSession.OnAIResponse | frontend/src/hooks/useWebSocket.ts:78-86 | One AI message is appended. Its id is `ai_` followed by the first clock reading, and its timestamp is the second. |
| WebSocket.SocketSession.Disconnect | frontend/src/hooks/useWebSocket.ts:91-99 | Without a socket, nothing changes. With one, the socket is dropped, the session is disconnected, and the chat and the emotion vector are cleared. The count of sockets opened is kept, so a later connect gets a serial never used before. |
| WebSocket.SocketSession.SendMessage | frontend/src/hooks/useWebSocket.ts:101-113 | When not connected, nothing changes. When connected, a user message is appended, with id `user_` followed by the first clock reading and the second reading as its timestamp. The message is emitted with the third reading. |
| WebSocket.SocketSession.SendAudioData | frontend/src/hooks/useWebSocket.ts:115-128 | The connection is checked at the call. When not connected, nothing changes. When connected, one more read is pending, and nothing is emitted yet. |
| WebSocket.SocketSession.OnAudioRead | frontend/src/hooks/useWebSocket.ts:119-125 | A finished read emits the data URL's segment between its first comma and any second comma, without checking the connection again. One fewer read is pending. |

## Left out

- Canvas drawing is left out: colours, fills, coordinates, the nose and the skin circle. Only the decisions each drawing makes are modelled: which eye and mouth shapes are drawn, and the brow offsets and rotations.
- React plumbing is left out: effects, `useCallback` dependency lists and the animation-frame loops in src/components/AIAvatar.tsx and frontend/src/components/UserAvatar.tsx. Each handler is a method, and the caller decides when it runs.
- AIAvatar.AvatarState.Blink: the blink interval's random period of 3 to 5 s is not modelled. The firing time is a parameter.
- SimulatedTracking.GenerateSimulatedLandmarks: the random, trigonometric keypoint positions are the `place` parameter.
- SimulatedTracking.SimulatedTracker.ProcessFrame: the sine-wave expressions are the `simulated` parameter. The 16 ms pause inside the call is not modelled, so calls do not interleave.
- The TensorFlow/MediaPipe detector is left out. Its answer (`Detection`, `LoadOutcome`) is an input.
- `getUserMedia` is left out. Its outcome (`StreamRequest`) is an input. The wait for the video's metadata is assumed to complete.
- Camera.CameraDevice.CaptureFrame: resizing the canvas and the pixel contents of the frame are left out. Only the guards and the frame dimensions are modelled.
- The socket.io transport is left out. Server events are method calls, and emitted messages are recorded in `emitted`.
- The session holds one current socket. This matches the source, whose `[socket]` effect disconnects the replaced socket after the next render. The short window before that cleanup runs is not modelled, so events from the replaced socket cannot arrive.
- The retry timer calls the `connect` captured in its closure, which may be stale. OnConnectError only returns the delay, and the caller then calls Connect on the current session.
- The unmount cleanups of the camera and animation hooks are left out (stop camera, cancel animation frames).
- UserAvatar.DrawCartoonAvatar and AIAvatar.DrawAIAvatar assume a mounted canvas with a 2D context. The source draws nothing when the canvas or its context is missing (frontend/src/components/UserAvatar.tsx:82-86, src/components/AIAvatar.tsx:115-119). For example, a tracker update can arrive after the session ends and the canvas is unmounted. The model then still returns a face.
- `FileReader` is left out. WebSocket.SocketSession.OnAudioRead takes the data URL the reader would produce. Reads are counted, not matched to their blobs, and may finish in any order.
- Toast notifications and console logging are left out. The `catch` branch of `handleToggleSession` only shows a toast.
- Number semantics are simplified: no NaN, no infinities and no floating-point rounding.
- Emotion key order: `Object.entries` follows the property order of the received object. The model assumes the declaration order. `AIAvatar.Reduce` and `EmotionMeter.FirstMax` are proved for any order.
- The ECharts styling options of the meter (colours, fonts, areas) are left out.
- The session controls button is left out. src/components/SessionControls.tsx is not part of this model.
- The backend (backend/app.py, backend/socket_handlers.py) is not part of this model.
