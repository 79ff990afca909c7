# Gyro-locked object tracking and speech input, in Dafny

This project models the two stateful managers of the GrabIt Android app. One
locks onto a target object in the camera feed and keeps its box on screen
with the phone's rotation sensor; the other takes speech input.

- **GyroTrackingManager** tracks a detected object in two states.
  - **SCANNING**: every camera frame goes through the object detector. A match
    for the target label with confidence of at least 0.6 locks the box.
  - **LOCKED**: the detector is not run. The box captured at lock time is moved
    by the phone's rotation since the first orientation sample after the lock.
    - The change in azimuth and pitch becomes a pixel shift through a
      pixels-per-degree calibration taken from the camera's field of view.
    - The displayed box follows that projection through an exponential moving
      average with factor 0.2.
    - The average is applied at most once per 250 ms, by the frame path or by the
      sensor path.
    - The lock ends when the projected box lies completely outside the frame.
- **STTManager** wraps the platform speech recogniser.
  - It owns the `isListening` flag and the cached partial transcript.
  - It turns the recogniser's callbacks into calls of the app's result, error
    and listening-changed callbacks.

Files:

- `wrappers.dfy`: `Option`.
- `geometry.dfy`: the box (`RectF`), its translation, the smoothing step and
  the frame-exit test.
- `text.dfy`: Kotlin's `isWhitespace`, `isBlank`, `trim()` and the decimal
  rendering of an `Int` in string templates.
- `gyro_tracking.dfy`: the tracker, a class whose fields are the Kotlin
  object's fields. Two fields stand for calls out of the class:
  - `currentBox` is the overlay's box slot behind `getCurrentBox`/`setCurrentBox`.
  - `notices` records the `onTransitionToLocked`/`onTransitionToSearching`
    calls.
- `speech_to_text.dfy`: the speech manager, a class. `emitted` records every
  callback invocation in order.

Inputs that come from the platform become parameters:

- The detector's output and the target matcher's pick.
- The frame size.
- The camera service's answer about view angles (`FovLookup`).
- Sensor events, already converted to an orientation in degrees.
- The current time in milliseconds.
- Whether the microphone permission is granted.
- Whether a recogniser call throws, and the exception's message.

## Model

| member | source | states |
|---|---|---|
| GyroTracking.Calibrate | app/src/main/java/com/example/grabit_test/GyroTrackingManager.kt:75-100 | A failed camera lookup gives 20 px/deg on both axes. No camera, or a frame of unknown size, keeps the current ratios. Positive ratios stay positive. |
| GyroTracking.VerticalFov | app/src/main/java/com/example/grabit_test/GyroTrackingManager.kt:86-88 | A reported vertical view angle is used as it is. Without one, a known frame size gives fovH * height / width and an unknown size gives 45. The result is positive. |
| GyroTracking.CalibrationSpansFrame | app/src/main/java/com/example/grabit_test/GyroTrackingManager.kt:86-94 | For a known frame size and a camera that answered: px/deg times the view angle equals the frame size on each axis. With only the horizontal angle reported, both axes get the same px/deg. |
| GyroTracking.LockedBox | app/src/main/java/com/example/grabit_test/GyroTrackingManager.kt:165-170 | The box shown while locked carries the locked label, the given rect and confidence 0.9. |
| GyroTracking.Locks | app/src/main/java/com/example/grabit_test/GyroTrackingManager.kt:109 | A match locks exactly when it exists and its confidence is at least 0.6. |
| GyroTracking.UpdateDue | app/src/main/java/com/example/grabit_test/GyroTrackingManager.kt:155 | An update is due exactly when at least 250 ms have passed since the last one. |
| GyroTracking.ProjectRect | app/src/main/java/com/example/grabit_test/GyroTrackingManager.kt:245-257 | The projected box has the lock box's size. No change in azimuth or pitch leaves it in place. |
| GyroTracking.ProjectionDirection | app/src/main/java/com/example/grabit_test/GyroTrackingManager.kt:248-250 | With positive calibration the box moves left exactly when azimuth grows and down exactly when pitch grows. Each shift is the angle change times px/deg. |
| GyroTracking.EnsureRotationVector4 | app/src/main/java/com/example/grabit_test/GyroTrackingManager.kt:218-225 | A vector of four or more components comes back unchanged. A shorter one is padded with zeros and gets a non-negative fourth component: the unit-norm scalar part when x²+y²+z² ≤ 1, else 0. |
| GyroTracking.ComputeRectFromGyro | app/src/main/java/com/example/grabit_test/GyroTrackingManager.kt:240-262 | There is a projection exactly when a latest sample exists and the reference orientation is set. It keeps the lock box's size. It moves left by (change of azimuth) * px/deg X and down by (change of pitch) * px/deg Y, so it equals the lock box for the reference sample itself. |
| GyroTracking.TurnRightExample | app/src/main/java/com/example/grabit_test/GyroTrackingManager.kt:75-100 | A 1200x900 frame with a 60° horizontal view angle gives 20 px/deg. A 5° turn right moves the box (100,100,200,200) to (0,100,100,200). |
| GyroTracking.NextReference | app/src/main/java/com/example/grabit_test/GyroTrackingManager.kt:178-185 | A set reference orientation is kept. An unset one becomes the sample, or stays unset when the sample is unreadable. |
| GyroTracking.FirstReadable | app/src/main/java/com/example/grabit_test/GyroTrackingManager.kt:178-185 | The first readable sample of a run: it exists exactly when some sample is readable, and every earlier sample is unreadable. |
| GyroTracking.ReferenceKept | app/src/main/java/com/example/grabit_test/GyroTrackingManager.kt:178-185 | Once set, the reference orientation survives any run of later samples. |
| GyroTracking.ReferenceIsFirstReadable | app/src/main/java/com/example/grabit_test/GyroTrackingManager.kt:178-185 | After a lock, the reference orientation is the first readable sample, whatever follows. |
| GyroTracking.GyroTrackingManager.constructor | app/src/main/java/com/example/grabit_test/GyroTrackingManager.kt:29-72 | The tracker starts in SCANNING: no label, no sensor subscription, no box, no reference. Its px/deg comes from the camera for an unknown frame size. The invariant holds. |
| GyroTracking.GyroTrackingManager.UpdateFovFromCamera | app/src/main/java/com/example/grabit_test/GyroTrackingManager.kt:75-100 | The new px/deg is Calibrate of the held frame size, the lookup and the old px/deg. |
| GyroTracking.GyroTrackingManager.Projection | app/src/main/java/com/example/grabit_test/GyroTrackingManager.kt:240-262 | ComputeRectFromGyro applied to the tracker's own fields. |
| GyroTracking.GyroTrackingManager.SmoothTowards | app/src/main/java/com/example/grabit_test/GyroTrackingManager.kt:159-162 | The four edge updates together are one Smooth step. |
| GyroTracking.GyroTrackingManager.Follow | app/src/main/java/com/example/grabit_test/GyroTrackingManager.kt:196-208 | One smoothing step; the smoothed box becomes the displayed box with the locked label. |
| GyroTracking.GyroTrackingManager.RegisterSensor | app/src/main/java/com/example/grabit_test/GyroTrackingManager.kt:272-281 | Registered afterwards exactly when it was before or a sensor exists. |
| GyroTracking.GyroTrackingManager.UnregisterSensor | app/src/main/java/com/example/grabit_test/GyroTrackingManager.kt:283-289 | Never registered afterwards, so a second call is harmless. |
| GyroTracking.GyroTrackingManager.ResetToSearching | app/src/main/java/com/example/grabit_test/GyroTrackingManager.kt:291-297 | Back to SCANNING with no label, no subscription and no box. Observers are told once more. The invariant is kept. |
| GyroTracking.GyroTrackingManager.TakeFrame | app/src/main/java/com/example/grabit_test/GyroTrackingManager.kt:132-134 | Records the frame size and recalibrates for it. |
| GyroTracking.GyroTrackingManager.BeginSession | app/src/main/java/com/example/grabit_test/GyroTrackingManager.kt:112-116 | The lock box and the smoothed box become the match's box. The reference and the latest sample are cleared. |
| GyroTracking.GyroTrackingManager.EnterLocked | app/src/main/java/com/example/grabit_test/GyroTrackingManager.kt:117-120 | LOCKED with the match's label. The match is displayed and announced with the frame size. |
| GyroTracking.GyroTrackingManager.HeldBox | app/src/main/java/com/example/grabit_test/GyroTrackingManager.kt:138-145 | Returns the displayed box. When there is none, the lock box is installed and returned. |
| GyroTracking.GyroTrackingManager.Observe | app/src/main/java/com/example/grabit_test/GyroTrackingManager.kt:177-185 | The event becomes the latest sample. The reference moves by NextReference. |
| GyroTracking.GyroTrackingManager.ProcessFrameSearching | app/src/main/java/com/example/grabit_test/GyroTrackingManager.kt:105-125 | A lock happens exactly when the match's confidence is ≥ 0.6, and 0.6 itself locks. Otherwise nothing changes and the detections come back. On a lock the full LOCKED state is set: label, box, notice, subscription, lock box = smoothed box, no reference, no latest sample, calibration for the frame. The invariant is kept. |
| GyroTracking.GyroTrackingManager.ProcessFrameLocked | app/src/main/java/com/example/grabit_test/GyroTrackingManager.kt:131-173 | Records the frame size and calibration, then judges the projection. With no projection, the held box is reported and nothing else moves. A projection outside the frame ends the lock. Otherwise, once 250 ms have passed, the timestamp becomes now and the box takes one smoothing step and is displayed; inside the window nothing moves. The invariant is kept. |
| GyroTracking.GyroTrackingManager.TrackFrame | app/src/main/java/com/example/grabit_test/GyroTrackingManager.kt:136-172 | The three cases of ProcessFrameLocked, judged by the projection of the state on entry. |
| GyroTracking.GyroTrackingManager.FollowIfDue | app/src/main/java/com/example/grabit_test/GyroTrackingManager.kt:154-172 | The 250 ms gate, inclusive at 250. Due: the timestamp becomes now, one smoothing step, displayed. Not due: nothing moves. The displayed box, or else the smoothed one, is reported. |
| GyroTracking.GyroTrackingManager.OnSensorChanged | app/src/main/java/com/example/grabit_test/GyroTrackingManager.kt:175-210 | Nothing happens unless locked with an event. The event becomes the latest sample, and the reference only if none is set. Inside the 250 ms window nothing else moves. Otherwise the timestamp becomes now before the projection is judged: no projection changes nothing more, outside ends the lock, inside takes one displayed smoothing step. The label changes only when the lock ends. The invariant is kept. |
| GyroTracking.GyroTrackingManager.TrackSample | app/src/main/java/com/example/grabit_test/GyroTrackingManager.kt:190-209 | The three projection cases of the sensor path, judged by the projection of the state on entry. The label changes only when the lock ends. |
| Geometry.Translate | app/src/main/java/com/example/grabit_test/GyroTrackingManager.kt:252-257 | Every edge moves by the same offset, so width and height are unchanged; a zero offset is the identity. |
| Geometry.Smooth | app/src/main/java/com/example/grabit_test/GyroTrackingManager.kt:159-162 | The residual to the target shrinks to exactly 0.8 of itself on every edge. The target is a fixed point. Each new edge lies between the old edge and the target. A box of the target's size keeps that size. |
| Geometry.ScaleScale | app/src/main/java/com/example/grabit_test/GyroTrackingManager.kt:159-162 | Scaling a residual twice is scaling it by the product. |
| Geometry.SmoothStepsResidual | app/src/main/java/com/example/grabit_test/GyroTrackingManager.kt:63-64 | After n updates towards a fixed target the residual is exactly 0.8^n times the initial one. |
| Geometry.PowTen | app/src/main/java/com/example/grabit_test/GyroTrackingManager.kt:63-64 | 0.8^10 = 0.1073741824. |
| Geometry.ScaledAbs | app/src/main/java/com/example/grabit_test/GyroTrackingManager.kt:63-64 | A factor between 0 and a bound scales a distance to at most bound times it. |
| Geometry.TenStepsWithinElevenPercent | app/src/main/java/com/example/grabit_test/GyroTrackingManager.kt:63-64 | Ten updates towards a fixed target leave at most 11% of each edge's initial distance. |
| Geometry.OutsideIffNoOverlap | app/src/main/java/com/example/grabit_test/GyroTrackingManager.kt:266-270 | For a frame of known size and a well-formed box, the exit test holds exactly when box and frame share no point. |
| Geometry.UnknownFrameNeverExits | app/src/main/java/com/example/grabit_test/GyroTrackingManager.kt:268 | A frame of non-positive width or height never reports an exit. |
| Geometry.EdgeContactIsInside | app/src/main/java/com/example/grabit_test/GyroTrackingManager.kt:269 | A box touching the left or right frame edge from outside is not an exit, because the comparisons are strict. |
| Geometry.IsRectCompletelyOutside | app/src/main/java/com/example/grabit_test/GyroTrackingManager.kt:267-270 | The exit test: false for a frame of non-positive size, else the box lies strictly beyond one of the four frame edges. Its meaning is stated by OutsideIffNoOverlap. |
| Geometry.SmoothEdge | app/src/main/java/com/example/grabit_test/GyroTrackingManager.kt:159 | One edge moves 20% of the way to its target; Smooth states the effect on the whole box. |
| Text.TrimStart | app/src/main/java/com/example/grabit_test/STTManager.kt:227 | Drops a blank prefix. The rest is a suffix that does not start with white space. |
| Text.IsWhitespace | app/src/main/java/com/example/grabit_test/STTManager.kt:227 | Kotlin's Char.isWhitespace: Java white space plus the Unicode space, line and paragraph separators. |
| Text.IsBlank | app/src/main/java/com/example/grabit_test/STTManager.kt:229 | isBlank: every character is white space, so the empty string is blank. |
| Text.TrimEnd | app/src/main/java/com/example/grabit_test/STTManager.kt:227 | Drops a blank suffix. The rest is a prefix that does not end with white space. |
| Text.Trim | app/src/main/java/com/example/grabit_test/STTManager.kt:227 | The slice of the input left between a blank prefix and a blank suffix. It neither starts nor ends with white space, and it is empty exactly when the input is blank. |
| Text.TrimSpec | app/src/main/java/com/example/grabit_test/STTManager.kt:227 | Trimming the front and then the back has all of Trim's properties. |
| Text.TrimParts | app/src/main/java/com/example/grabit_test/STTManager.kt:227 | Trimming the front and then the back leaves a slice of the input. It is empty exactly when the input is blank. |
| Text.TrimCuts | app/src/main/java/com/example/grabit_test/STTManager.kt:227 | What trimming the front and then the back cuts off is blank on both sides. |
| Text.TrimWitness | app/src/main/java/com/example/grabit_test/STTManager.kt:227 | The trimmed text starts right after the leading white space. Only white space comes before and after it. |
| Text.DigitChar | app/src/main/java/com/example/grabit_test/STTManager.kt:173 | A digit value maps to a character between '0' and '9'. |
| Text.NatToString | app/src/main/java/com/example/grabit_test/STTManager.kt:173 | At least one digit and only digits, exactly one for values below 10. The digits denote the value in decimal, and only 0 starts with the digit 0. |
| Text.IntToString | app/src/main/java/com/example/grabit_test/STTManager.kt:173 | Starts with '-' exactly for negative values. The rest is the decimal rendering of the magnitude, so the string denotes the value. |
| Text.NatToStringInjective | app/src/main/java/com/example/grabit_test/STTManager.kt:173 | Distinct naturals render differently. |
| Text.IntToStringInjective | app/src/main/java/com/example/grabit_test/STTManager.kt:173 | Distinct integers render differently. |
| SpeechToText.ErrorCodeToString | app/src/main/java/com/example/grabit_test/STTManager.kt:162-174 | Every name starts with "ERROR_". The nine known codes (1..9) are exactly those whose name is not an ERROR_UNKNOWN one. |
| SpeechToText.UnknownCodeName | app/src/main/java/com/example/grabit_test/STTManager.kt:173 | An unknown code's name is "ERROR_UNKNOWN(" + the code's decimal rendering + ")". |
| SpeechToText.ErrorCodeToStringInjective | app/src/main/java/com/example/grabit_test/STTManager.kt:162-174 | Different codes never get the same name. |
| SpeechToText.ErrorMessage | app/src/main/java/com/example/grabit_test/STTManager.kt:200-211 | Exactly the nine known codes get a message other than the "unknown error (code: …)" one. |
| SpeechToText.KnownMessageCode | app/src/main/java/com/example/grabit_test/STTManager.kt:200-209 | Reads a message back as the code it stands for. Only known codes (1..9) come out. |
| SpeechToText.ErrorMessageDecodes | app/src/main/java/com/example/grabit_test/STTManager.kt:200-211 | A known code's message reads back as exactly that code. An unknown code's message reads back as none of the nine. |
| SpeechToText.UnknownMessage | app/src/main/java/com/example/grabit_test/STTManager.kt:210 | An unknown code's message is the "unknown error (code: " prefix, then the code's decimal rendering, then ")". |
| SpeechToText.ErrorMessageInjective | app/src/main/java/com/example/grabit_test/STTManager.kt:200-211 | Different codes never get the same message. |
| SpeechToText.ReportsPlainError | app/src/main/java/com/example/grabit_test/STTManager.kt:216 | The plain error callback fires for every code except 7 (no match) and 5 (client). |
| SpeechToText.FirstTrimmed | app/src/main/java/com/example/grabit_test/STTManager.kt:227 | Present exactly when the candidate list exists and is non-empty. It is the trimmed top candidate, empty exactly when that candidate is blank. |
| SpeechToText.IsUsable | app/src/main/java/com/example/grabit_test/STTManager.kt:229-230 | Kotlin's !isNullOrBlank: the text exists and is not blank. |
| SpeechToText.FinalText | app/src/main/java/com/example/grabit_test/STTManager.kt:228-232 | A result exists exactly when the final candidate or the cached partial has content. The final candidate wins; the partial is the fallback; a result is never blank. |
| SpeechToText.ErrorEvents | app/src/main/java/com/example/grabit_test/STTManager.kt:213-218 | Listening turns false first. The code-aware callback fires exactly when supplied. The plain error callback fires exactly for codes other than 7 (no match) and 5 (client). Listening is never turned on. |
| SpeechToText.ResultsEmptyCache | app/src/main/java/com/example/grabit_test/STTManager.kt:228-242 | With a well-formed cache, a cached partial always yields a result, so the cache never survives a result callback. |
| SpeechToText.PartialIsCacheable | app/src/main/java/com/example/grabit_test/STTManager.kt:253-256 | A partial transcript with content is trimmed and non-blank, as the cache requires. |
| SpeechToText.STTManager.constructor | app/src/main/java/com/example/grabit_test/STTManager.kt:19-35 | No recogniser, not listening, empty cache, no callbacks yet. |
| SpeechToText.STTManager.Init | app/src/main/java/com/example/grabit_test/STTManager.kt:37-55 | Returns whether recognition is available. If it is, the recogniser exists; if not, the "not supported" error is reported and nothing else changes. |
| SpeechToText.STTManager.EndSession | app/src/main/java/com/example/grabit_test/STTManager.kt:194-195 | Not listening afterwards, and listening-changed(false) is reported. |
| SpeechToText.STTManager.StartListening | app/src/main/java/com/example/grabit_test/STTManager.kt:57-120 | No recogniser: only the "not initialised" error. No permission: only the "permission required" error. Otherwise listening-changed(false) first. Then either listening with listening-changed(true), or, when start throws, not listening with the "start failed: <message>" error. |
| SpeechToText.STTManager.StopListening | app/src/main/java/com/example/grabit_test/STTManager.kt:122-132 | Unless the recogniser's stop throws (then nothing changes), not listening afterwards with listening-changed(false). |
| SpeechToText.STTManager.CancelListening | app/src/main/java/com/example/grabit_test/STTManager.kt:135-145 | Unless the recogniser's cancel throws (then nothing changes), not listening afterwards with listening-changed(false). |
| SpeechToText.STTManager.IsListening | app/src/main/java/com/example/grabit_test/STTManager.kt:147 | The flag; listening implies a recogniser exists. |
| SpeechToText.STTManager.Release | app/src/main/java/com/example/grabit_test/STTManager.kt:149-160 | Unless destroy throws (then nothing changes), no recogniser, not listening, listening-changed(false). |
| SpeechToText.STTManager.OnEndOfSpeech | app/src/main/java/com/example/grabit_test/STTManager.kt:192-196 | Not listening afterwards, with listening-changed(false). |
| SpeechToText.STTManager.OnError | app/src/main/java/com/example/grabit_test/STTManager.kt:198-219 | Not listening afterwards. The callbacks are exactly ErrorEvents for the code. The cache is untouched. |
| SpeechToText.STTManager.OnResults | app/src/main/java/com/example/grabit_test/STTManager.kt:221-249 | With a final text: that text is delivered and the cache is cleared. Without one: the "nothing recognised" error is reported and the cache is left as it was. Either way listening ends with listening-changed(false), and the cache is empty afterwards. |
| SpeechToText.STTManager.OnPartialResults | app/src/main/java/com/example/grabit_test/STTManager.kt:251-261 | The trimmed top candidate replaces the cache only when it has content. Nothing else changes, and no callback fires. |

## Left out

- Android platform calls are outside the model. This covers the detector
  (`runYOLOX`), the target matcher, sensor subscription, the camera service,
  `SensorManager.getRotationMatrixFromVector`/`getOrientation` and the speech
  recogniser itself. Their results are inputs, and a sensor event carries the
  orientation they would compute, or None when that computation fails.
- Floating point is not modelled. `Float` arithmetic is modelled on exact
  reals, so rounding in the smoothing and calibration is not captured.
- `radToDeg` is not modelled: orientations are taken in degrees, and the
  conversion is a linear factor.
- Kotlin's `sqrt` is not modelled. `EnsureRotationVector4` takes it as a
  parameter specified by its defining property.
- IsSquareRoot: the parameter must also return 0 at 0, which every real
  square root does.
- ValidLookup: reported view angles are assumed positive. This is an
  assumption of the model: the source reads two camera characteristic keys
  (GyroTrackingManager.kt:84-85) and checks nothing. A zero or negative angle
  would give an infinite or negative px/deg (GyroTrackingManager.kt:91-92),
  which the model does not capture.
- `runOnMain` is not modelled. Posting the reset or the box update to the UI
  thread is modelled as an immediate call, and the `@Volatile` field and the
  races between the sensor thread and the frame thread are not modelled.
- GyroTracking.GyroTrackingManager.OnSensorChanged assumes the context is an
  Activity. `runOnMain` runs its block only then (GyroTrackingManager.kt:214-216).
  With any other context the sensor path's reset (GyroTrackingManager.kt:192)
  and box update (GyroTrackingManager.kt:207-209) never happen, although the
  smoothed box still moves. The model does not capture that case.
- `getCurrentBox`/`setCurrentBox` are modelled as a slot only the tracker
  writes. The image width and height passed to `setCurrentBox` are not
  recorded.
- The app's other writers of the overlay box are not modelled. For that
  reason the invariant does not claim that a scanning tracker shows no box:
  `processFrameLocked` is not guarded by the state and can install the lock
  box while scanning.
- GyroTracking.GyroTrackingManager.ResetToSearching notifies observers on
  every call, even when the tracker is already scanning
  (GyroTrackingManager.kt:291-297). The rate-limit timestamp
  `lastGyroUpdateTimeMillis` is reset neither by a reset nor by a new lock
  (GyroTrackingManager.kt:61, 105-125). The model does the same.
- `ProcessResult.Scanning` carries the detections as given. The detector
  itself is not modelled.
- `onAccuracyChanged`, `onReadyForSpeech`, `onBeginningOfSpeech`,
  `onRmsChanged`, `onBufferReceived` and `onEvent` only log or do nothing,
  and are not modelled.
- Logging, the confidence-score formatting in `onResults`, the recogniser
  intent's extras and audio focus requests are not modelled.
- SpeechToText.STTManager.Release treats the `abandonAudioFocus` call
  after the state change as never throwing.
- SpeechToText.STTManager.StartListening drops the exception from stopping
  a previous session, since the source swallows it and it changes nothing.
- A null exception message in the "start failed" error is taken as a
  string parameter.
