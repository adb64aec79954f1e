# Sign-letter recognition: the per-frame step

This project models the per-frame step of a hand-sign recognition program.
The step has two copies:

- the desktop window `ASLRecognitionApp.update_frame` (`gui.py`);
- the web stream `generate_frames` (`real_time.py`).

On every camera frame the step does the following:

1. It draws a coloured skeleton over each detected hand.
2. It builds the classifier's feature vector. For each landmark it stores the offset from the minimum seen so far of the running lists `x_` and `y_`.
3. It maps the predicted class index to a sign label through a closed 14-entry table, with `'?'` as the default.
4. When the prediction succeeds, it draws a bounding box with four corner accents.

The web stream also writes the label above the box. It wraps every JPEG-encoded frame as one body part of a `multipart/x-mixed-replace` response with boundary `frame`, following the boundary-delimiter syntax of section 5.1.1 of RFC 2046.

The model is written once and shared by both programs:

- `Landmarks`: the hand landmarks; Python's `min`, `max` and `int()` on a float.
- `Features`: the feature vector with its running-minimum origin.
- `Labels`: the label table.
- `Drawing`: a `Frame` class whose `overlay` field records every OpenCV drawing call in order.
- `Skeleton`: `draw_colored_landmarks`.
- `Reticle`: the box and its corner accents.
- `Pipeline`: the body of one tick after detection.

Each program has a thin module proved against those shared functions:

- `Gui`, with the `App` class, its theme state and `UpdateFrame`;
- `RealTime`, with the stream loop.

The theme records are in `Theme`. The chunk framing is in `Multipart`.

The code that changes state is imperative Dafny. Drawing appends commands to `Frame.overlay`. The hand loop and its two inner loops are `for` loops that build the feature vector and `x_`/`y_`. `update_colors`, `toggle_theme` and `update_frame` assign object fields. The stream is a `while` loop that stops at the first failed read. Each method is proved against a specification function:

- `JointsPlan`, `SkeletonPlan` and `SkeletonsPlan` for the skeleton;
- `FeatureVector` and `Coords` for the vector and the running lists;
- `ReticlePlan` for the box;
- `Overlay` and `Classify` for the whole tick;
- `Part` for the chunk.

Lemmas prove what the program promises about those functions.

The hand detector and the trained classifier are opaque. They are parameters:

- `Detector` maps an image to a sequence of 21-point hands.
- `Classifier` maps a feature vector to `Option<int>`. `None` stands for a prediction that raised, which the program catches.

The JPEG encoder is a parameter of the stream too.

Two behaviours of the code are easy to misread:

- **Origin.** Hand *k* is offset from the minimum over hands 0..*k*, not from its own minimum and not from the whole batch's. The code appends each hand's coordinates to `x_`/`y_` before computing that hand's offsets. `Features.Origin` models that running minimum. `Features.OriginIsNotPerHand` and `Features.OriginIsNotWholeBatch` show both differences. With one hand, the only case the detector is configured for, all three coincide.
- **Failed read.** `generate_frames` ends the stream at the first failed read (`break`, `real_time.py:86-87`); it does not skip the tick. `RealTime.GenerateFrames` emits exactly the frames read before the first failure. In `update_frame` a failed read returns and changes nothing, which `Gui.App.UpdateFrame` models.

## Model

| member | source | states |
|---|---|---|
| `Labels.LabelOf` | gui.py:330 | Total over every integer. Indices 0..13 give A, B, G, L, S, Space, nothing, Z, Y, W, O, P, N, J in that order; any other index gives `'?'`. The table at real_time.py:16-31 and its use at line 118 are identical. |
| `Labels.UnknownExactlyOffTable` | gui.py:17-32 | The lookup gives `'?'` if and only if the index is outside 0..13, so `'?'` never stands for a real sign. |
| `Labels.LabelsDistinct` | gui.py:17-32 | Two different indices in the table give two different labels. |
| `Landmarks.Coords` | gui.py:315-319 | The running list `x_` (or `y_`) holds 21 entries per hand appended. |
| `Landmarks.CoordsAt` | gui.py:315-319 | Landmark i of hand k is entry 21k + i of the running list. |
| `Landmarks.MinIsLeast` | gui.py:324 | Python's `min` of a non-empty list is at most every element and is one of them. |
| `Landmarks.MaxIsGreatest` | gui.py:339 | Python's `max` of a non-empty list is at least every element and is one of them. |
| `Landmarks.Trunc` | gui.py:337 | `int()` on a float truncates toward zero. For r >= 0 it returns n >= 0 with n <= r < n + 1; for r < 0 it returns n <= 0 with n - 1 < r <= n. |
| `Landmarks.ScaledMonotone` | gui.py:337-340 | `int(v * n)` preserves the order of coordinates. |
| `Features.FeatureVector` | gui.py:321-325 | `data_aux` has 42 entries per hand: 2 x the total number of landmarks. |
| `Features.FeatureVectorAt` | gui.py:311-325 | Entry 42k + 2i is landmark i of hand k's x minus the minimum x over hands 0..k, and entry 42k + 2i + 1 is the same for y. This is x then y, landmark by landmark, hand by hand (identical at real_time.py:96-113). |
| `Features.Offsets` | gui.py:321-325 | One hand's inner offset loop appends two entries per landmark. |
| `Features.OriginBelow` | gui.py:324-325 | Hand k's origin is at or below every landmark of hands 0..k. |
| `Features.OriginNonIncreasing` | gui.py:318-325 | The origin of a later hand is never above that of an earlier one. |
| `Features.EntriesNonNegative` | gui.py:324-325 | Both offsets of every landmark are >= 0. |
| `Features.FeatureVectorNonNegative` | gui.py:321-325 | Every entry of the feature vector is >= 0. |
| `Features.SingleHandTouchesZero` | gui.py:315-325 | For one hand, some x-offset and some y-offset are exactly 0. |
| `Features.LowestLandmark` | gui.py:324 | A lone hand has a landmark lying on its origin, on either axis. |
| `Features.OriginIsNotPerHand` | gui.py:311-325 | A hand at (0.5, 0.5) after a hand at (0, 0) is offset by 0.5, not 0. The origin is not the hand's own minimum. |
| `Features.OriginIsNotWholeBatch` | real_time.py:100-113 | A hand at (0.5, 0.5) before a hand at (0, 0) is offset by 0, not 0.5, although the batch minimum is 0. The origin is not the whole batch's minimum. |
| `Drawing.PixelWithinFrame` | gui.py:73 | A landmark inside the unit square maps to a pixel within 0..w and 0..h. |
| `Drawing.Frame.constructor` | gui.py:295 | A freshly read frame holds its image and nothing drawn over it. |
| `Drawing.Frame.DrawCircle` | gui.py:84 | `cv2.circle` appends one circle to the frame's drawing and keeps the rest. |
| `Drawing.Frame.DrawLine` | gui.py:90 | `cv2.line` appends one line. |
| `Drawing.Frame.DrawRectangle` | gui.py:343 | `cv2.rectangle` appends one rectangle. |
| `Drawing.Frame.PutText` | real_time.py:137-138 | `cv2.putText` appends one text. |
| `Skeleton.JointsPlanAt` | gui.py:81-90 | For finger indices all >= 1, the inner loop draws 2 commands per index: at 2j the marker of index j, then the bone from index - 1. |
| `Skeleton.FingerLandmarksAt` | gui.py:58-64 | In dictionary order, finger m has landmarks 4m+1..4m+4, and those landmarks belong to it. |
| `Skeleton.FingerJointsAt` | gui.py:77-90 | Finger m draws 8 commands: landmarks 4m+1..4m+4, each with its bone, in that finger's colour. |
| `Skeleton.FingersPlanLength` | gui.py:77-90 | The first n fingers draw 8n commands. |
| `Skeleton.FingerJointDrawn` | gui.py:77-90 | Among the first n fingers, landmark i (1..4n) is drawn at command 2i - 2, in its finger's colour. |
| `Skeleton.FingersPlanAt` | gui.py:77-90 | All the above for every landmark of the first n fingers. |
| `Skeleton.SkeletonPlanAt` | gui.py:47-90 | A skeleton is 41 commands. The wrist marker comes first in the theme colour. Then, for i = 1..20, the marker of landmark i and the bone (i-1 -> i), both in i's finger colour. So the bones include 4-5, 8-9, 12-13 and 16-17. |
| `Skeleton.SkeletonOnlyMarkersAndBones` | gui.py:71-90 | A skeleton draws only circles and lines. |
| `Skeleton.SkeletonsOnlyMarkersAndBones` | gui.py:311-313 | The skeletons of n hands are 41n commands, all circles and lines. |
| `Skeleton.DrawJoint` | gui.py:82-90 | One inner-loop step appends the marker and, for a positive index, the bone from the previous landmark. |
| `Skeleton.DrawFinger` | gui.py:81-90 | The loop over a finger's indices appends exactly `JointsPlan` for them. |
| `Skeleton.DrawColoredLandmarks` | gui.py:47-90 | `draw_colored_landmarks` appends exactly the hand's `SkeletonPlan` (identical at real_time.py:46-80). |
| `Reticle.ScaledWithinExtremes` | gui.py:337-340 | Every scaled coordinate lies between the scaled minimum and maximum, and both extremes are attained. |
| `Reticle.BoxAtLeastCornerWide` | gui.py:337-340 | The box is at least 20 pixels wide and high. |
| `Reticle.BoxNotClamped` | gui.py:337-340 | Nothing clamps the box to the frame: a landmark at x = 0 puts x1 at -10. |
| `Reticle.ReticleShape` | gui.py:343-350 | The reticle is 5 commands: the rectangle on (x1,y1)-(x2,y2), then 20-pixel strokes from (x1,y1) along +x and +y and from (x2,y2) along -x and -y, in that order, each of thickness 3. When the box is at least 20 wide and high, every stroke lies on the outline. |
| `Reticle.DrawReticle` | gui.py:343-350 | The rectangle and four `cv2.line` calls append exactly `ReticlePlan`. |
| `Theme.PaletteDeterminesMode` | gui.py:96-116 | The dark and light records differ, including the landmark colour. Both have accent `#6b46c1`. |
| `Theme.ThemeColors.constructor` | gui.py:93-94 | A new colour record holds the chosen theme's values. |
| `Theme.ThemeColors.UpdateColors` | gui.py:96-116 | Every field takes the chosen theme's value. The landmark colour is (200,180,255) when dark and (130,80,180) when light. |
| `Pipeline.BoxIffRecognized` | gui.py:306-356 | A rectangle is drawn if and only if a sign was recognised. No hand: nothing is drawn. Failed prediction: exactly the skeletons remain. |
| `Pipeline.BoxEnclosesSkeleton` | gui.py:336-343 | Every landmark's pixel lies inside the box, at least 10 pixels from each side, and some landmark is exactly 10 from the left side and from the top. |
| `Pipeline.AxisBounds` | gui.py:337-340 | On one axis, every landmark's pixel lies between the scaled extremes of the running list, and the lower one is attained. |
| `Pipeline.CoordsBounds` | gui.py:337-340 | `min(x_)` and `max(x_)` bound every landmark, and the minimum is a landmark. |
| `Pipeline.CaptionAboveHands` | real_time.py:137-138 | The caption is one text, the sign, at (x1, y1 - 10), so its baseline is at least 20 pixels above every landmark. |
| `Pipeline.MoreHandsUnclassified` | gui.py:327-329 | A model that accepts only the one-hand width 42 never answers for two or more hands. |
| `Pipeline.RecognizeHands` | gui.py:306-353 | Returns `Classify`: no hand, unclassified, or the looked-up sign. Appends exactly `Overlay`: the skeletons, then the reticle and (on the stream) the caption only when the prediction succeeded. |
| `Pipeline.DrawRecognition` | gui.py:336-350 | After a prediction, the box, its accents and optionally the caption are appended. |
| `Pipeline.ProcessHands` | gui.py:307-325 | The hand loop leaves `data_aux` = `FeatureVector`, `x_`/`y_` = `Coords`, and appends all skeletons in hand order. |
| `Pipeline.AppendCoords` | gui.py:315-319 | The first inner loop appends the hand's x and y coordinates to `x_` and `y_`. |
| `Pipeline.AppendOffsets` | gui.py:321-325 | The second inner loop appends every landmark's offsets from the current minima. |
| `Pipeline.HandStep` | gui.py:311-325 | Hand k extends the running lists by its coordinates, the vector by its offsets from the minima over hands 0..k, and the drawing by its skeleton. |
| `Gui.DisplayUnknownIff` | gui.py:327-356 | The display shows `'?'` if and only if there is no hand, the prediction raised, or the index is off the table. Otherwise it shows the predicted index's label. |
| `Gui.App.constructor` | gui.py:145-149 | The window starts in dark mode with `'?'` on the letter display, and both colour records dark. |
| `Gui.App.UpdateTheme` | gui.py:229-288 | The window's and the display's colours and the button icon follow the dark-mode flag. |
| `Gui.App.ToggleTheme` | gui.py:290-292 | Negates the flag, recolours both records (the landmark colour changes), and keeps the displayed letter. |
| `Gui.ToggleTwice` | gui.py:290-292 | Toggling twice restores the mode and every colour. |
| `Gui.App.UpdateFrame` | gui.py:294-356 | A failed read changes nothing. Otherwise the display shows `DisplayText(Classify(...))` and the frame gets exactly `Overlay` in the theme's landmark colour, with no caption. |
| `RealTime.StreamLabelNoneIff` | real_time.py:93-118 | `predicted_character` stays `None` if and only if no hand was detected or the prediction raised. Otherwise it is the label of the predicted index. |
| `RealTime.AnnotateFrame` | real_time.py:89-141 | One tick draws exactly `Overlay` in (200,180,255), with the caption, and yields the label. |
| `RealTime.ReadsBeforeFailure` | real_time.py:84-87 | Counts the successful reads before the first failure. |
| `RealTime.GenerateFrames` | real_time.py:82-149 | Yields one chunk per frame read before the first failed read, in order. Chunk t is the multipart framing of the encoded annotated frame t. |
| `RealTime.EmitFrame` | real_time.py:89-149 | A read image yields `Part(encode(annotated image))`. |
| `RealTime.StreamIsDarkWindowWithCaption` | real_time.py:101 | The stream's fixed colour is the dark theme's landmark colour. The stream draws the dark window's overlay plus the caption after a recognition. |
| `Multipart.PartRoundTrip` | real_time.py:148-149 | A chunk is 39 bytes longer than its JPEG, and parsing it gives the JPEG back. |
| `Multipart.ParsePartInverse` | real_time.py:148-149 | Every chunk the parser accepts is the framing of what it returns. |
| `Multipart.PartOpensWithDelimiter` | real_time.py:148 | Every chunk opens with `--frame` and CRLF. |
| `Multipart.PartsDelimitedByBoundary` | real_time.py:157-158 | The Content-Type names boundary `frame`. Between two chunks, the bytes read CRLF `--frame`, the delimiter that RFC 2046 requires. |
| `Multipart.DelimiterAfterTail` | real_time.py:148-149 | A chunk's CRLF tail followed by the next delimiter reads CRLF `--frame`. |

## Left out

- Camera I/O: opening, reading and releasing the camera is not modelled. A read is an `Option<Image>` (desktop) or an element of a finite sequence of reads (stream).
- `cv2.flip` and `cv2.cvtColor`: treated as part of the read image. Pixel rasterisation of circles, lines, rectangles and text is not modelled; drawing records the calls.
- MediaPipe hand detection: an opaque `Detector` parameter. The detector settings (`max_num_hands=1`, confidences) are not modelled, so any number of hands is allowed.
- Every hand is taken to have exactly 21 landmarks, which is what the detector reports. The drawing code indexes 0..20 and would raise on a shorter hand.
- The pickled model and `model.predict`: an opaque `Classifier` parameter. Any exception it raises is `None`. `print` of the error is not modelled.
- `cv2.imencode`: the opaque `encode` parameter of the stream. Its `ret` flag is ignored, as in the source.
- Floating point: landmark coordinates are exact reals. The rounding of `x * W` before `int()` is not modelled.
- Qt widgets, layouts, stylesheets, painting of the circular label, the 20 ms timer and the QImage conversion are not modelled. So are Flask routes, the HTML page and app start-up.
- Text font: `cv2.putText`'s font face (`FONT_HERSHEY_SIMPLEX`) is not recorded in a `Text` command. Its scale, colour and thickness are.
- `Gui.App.UpdateTheme`: states the colour records and the button icon only. The stylesheet strings built from them are not modelled.
- `Gui.App.UpdateFrame`: models one timer tick on an already-open camera. The display update after the frame (QImage, scene) is left out.
- `RealTime.GenerateFrames`: the source loops `while True` over an unbounded camera. The model runs over a finite sequence of reads, and a stream that never fails is cut at the end of that sequence.
- `Pipeline.AppendOffsets`: the source evaluates `min(x_)` and `min(y_)` on every iteration. The lists do not change inside that loop, so the model evaluates them once per hand. The values are the same; the repeated work is not modelled.
- `connection_color` is assigned but never used by the source. It is kept in the palette.
