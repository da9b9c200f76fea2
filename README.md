# CameraKit core in Dafny

A model of the camera core of an Android preview/recording widget
(`com.lvshi.camera`): how `CameraKit` picks resolutions and rotations, how it
keeps track of the camera lifecycle on the Camera2 path, and the
`CompareSizesByArea` comparator.

- `sizes.dfy`: `Size` (`android.util.Size`) with 32-bit `Int` width and height.
- `compare_sizes_by_area.dfy`: `compare` with its JVM `Long` arithmetic written
  out. The model proves that no step overflows and that the comparator obeys
  the three `java.util.Comparator` laws, so it is a total preorder by area. A
  concrete input shows that 32-bit products would misorder sizes.
- `orientation.dfy`: `getRotation`, the legacy `setDisplayOrientation`
  formulas (Kotlin's truncating `%` written out), and the
  `DEFAULT_ORIENTATIONS`/`INVERSE_ORIENTATIONS` recorder-hint tables with
  `SparseIntArray.get`'s default of 0. The lemmas relate these computations:
  - the Camera2 total rotation equals the legacy back-camera orientation;
  - the getRotation table equals the DEFAULT table;
  - a recorder hint, when one is set, is the total rotation;
  - the two tables are half-turn mirrors.
- `size_selection.dfy`: `chooseVideoSize`, the `getSuitableSize` loop (one
  method shared by the Camera2 and legacy copies), `chooseOptimalSize` and
  the two size searches of the legacy `initConfig`. The loop is proved
  against an independent right-to-left reference definition, `NearestFrom`.
  The selected index is the earliest same-aspect candidate nearest in width,
  the first exact width match wins, and index 0 is the fallback.
- `camera_kit.dfy`: class `CameraKit` with the following fields:
  - the `cameraOpenCloseLock` permits;
  - presence flags for the camera device, the capture session and the media recorder;
  - `videoPath` and `isRecordingVideo`;
  - the `lateinit` `currentCameraId`, `sensorOrientation`, `videoSize` and `previewSize`.

  Every public operation, the private `releaseCamera` and
  `closePreviewSession`, and every hardware callback is a method. Each
  method states its whole new state. Thrown exceptions are an `Outcome`, and
  the state they leave behind is stated stage by stage (`OpenProgress`).
  Two client methods run whole call sequences: preview, record, stop, switch,
  release; and a second start before the first open completes.

Behaviour the model keeps as the code has it:
- a permit taken by `startCameraPreview`/`switchCamera` is not given back
  when a later step throws (missing camera id, missing stream map, empty
  size list);
- `startRecordVideo` stores the path before the null-device early return;
- the recording-session callback raises `isRecordingVideo` even when there is
  no recorder;
- `release()` does not lower `isRecordingVideo`;
- `getSuitableSize` never reads its `height` argument.

## Model

| member | source | states |
|---|---|---|
| `CompareSizesByArea.Compare` | src/main/java/com/lvshi/camera/CompareSizesByArea.kt:14-15 | the comparator returns only -1, 0 or 1, and because of the widening it is the sign of the exact area difference for every pair of sizes (no overflow) |
| `CompareSizesByArea.ToLong` | src/main/java/com/lvshi/camera/CompareSizesByArea.kt:13-15 | Long arithmetic wraps modulo 2^64 into [-2^63, 2^63) and is exact inside that range |
| `CompareSizesByArea.ToInt` | src/main/java/com/lvshi/camera/CompareSizesByArea.kt:13 | Int arithmetic wraps modulo 2^32 |
| `CompareSizesByArea.Signum` | src/main/java/com/lvshi/camera/CompareSizesByArea.kt:15 | `Long.signum`: -1, 0 or 1 with the sign of its argument |
| `CompareSizesByArea.CompareWithoutCast` | src/main/java/com/lvshi/camera/CompareSizesByArea.kt:13-15 | the same comparison without the widening still yields -1, 0 or 1 |
| `CompareSizesByArea.ProductFitsInLong` | src/main/java/com/lvshi/camera/CompareSizesByArea.kt:13-15 | the product of two Ints lies in [-(2^62 - 2^31), 2^62] |
| `CompareSizesByArea.CompareMatchesArea` | src/main/java/com/lvshi/camera/CompareSizesByArea.kt:15 | compare is negative, zero or positive exactly when area(lhs) is below, equal to or above area(rhs) |
| `CompareSizesByArea.CompareReflexive` | src/main/java/com/lvshi/camera/CompareSizesByArea.kt:15 | compare(s, s) == 0 |
| `CompareSizesByArea.CompareAntisymmetric` | src/main/java/com/lvshi/camera/CompareSizesByArea.kt:11-15 | compare(a, b) == -compare(b, a) |
| `CompareSizesByArea.CompareTransitive` | src/main/java/com/lvshi/camera/CompareSizesByArea.kt:11-15 | compare(a, b) <= 0 and compare(b, c) <= 0 imply compare(a, c) <= 0 |
| `CompareSizesByArea.CompareStrictlyTransitive` | src/main/java/com/lvshi/camera/CompareSizesByArea.kt:11-15 | compare(a, b) > 0 and compare(b, c) > 0 imply compare(a, c) > 0 |
| `CompareSizesByArea.CompareSubstitutable` | src/main/java/com/lvshi/camera/CompareSizesByArea.kt:11-15 | compare(a, b) == 0 implies compare(a, c) == compare(b, c) |
| `CompareSizesByArea.CompareTotal` | src/main/java/com/lvshi/camera/CompareSizesByArea.kt:11-15 | every two sizes are ordered one way or the other |
| `CompareSizesByArea.CastIsNeeded` | src/main/java/com/lvshi/camera/CompareSizesByArea.kt:13-15 | with 32-bit products a 46341 x 46341 size would sort below 1 x 1; with the cast it sorts above |
| `Orientation.Rem360` | src/main/java/com/lvshi/camera/CameraKit.kt:481 | Kotlin's `% 360`: the remainder lies in (-360, 360), carries the dividend's sign and is congruent to it |
| `Orientation.CompensatedRotation` | src/main/java/com/lvshi/camera/CameraKit.kt:474-480 | the getRotation table coincides with DEFAULT_ORIENTATIONS on ROTATION_0..270 and passes other values through |
| `Orientation.GetRotation` | src/main/java/com/lvshi/camera/CameraKit.kt:473-482 | the total rotation lies in [0, 360) for non-negative display rotation and sensor orientation |
| `Orientation.GetRotationIsSensorLessDisplay` | src/main/java/com/lvshi/camera/CameraKit.kt:473-482 | the total rotation is (sensorOrientation - 90 * displayRotation) mod 360 |
| `Orientation.QuarterTurnSwap` | src/main/java/com/lvshi/camera/CameraKit.kt:438-441 | for right-angle sensor orientations the dimensions swap exactly when one of the sensor orientation and the display rotation is sideways (90 or 270) and the other is not |
| `Orientation.Degrees` | src/main/java/com/lvshi/camera/CameraKit.kt:385-391 | ROTATION_0..270 map to 0/90/180/270 and any other value to 0 |
| `Orientation.DisplayOrientation` | src/main/java/com/lvshi/camera/CameraKit.kt:392-398 | the legacy display orientation is in [0, 360) for a front camera always, for a back camera whenever orientation >= 0 |
| `Orientation.FrontOrientationMirrors` | src/main/java/com/lvshi/camera/CameraKit.kt:393-395 | the front formula equals -(orientation + degrees) mod 360 |
| `Orientation.BackOrientationSubtracts` | src/main/java/com/lvshi/camera/CameraKit.kt:396-397 | the back formula equals (orientation - degrees) mod 360 |
| `Orientation.PreviewRotationIsBackOrientation` | src/main/java/com/lvshi/camera/CameraKit.kt:473-481 | getRotation equals the back-camera display orientation for the same sensor and display |
| `Orientation.OrientationHint` | src/main/java/com/lvshi/camera/CameraKit.kt:568-574 | a hint is set exactly when the sensor orientation is 90 or 270, and it is a right angle |
| `Orientation.InverseMirrorsDefault` | src/main/java/com/lvshi/camera/CameraKit.kt:54-65 | INVERSE[r] == (DEFAULT[r] + 180) % 360 for every rotation |
| `Orientation.HintIsPreviewRotation` | src/main/java/com/lvshi/camera/CameraKit.kt:569-574 | the hint chosen for sensor 90 or 270 is the total rotation getRotation computes |
| `Orientation.HintsDistinguishRotations` | src/main/java/com/lvshi/camera/CameraKit.kt:54-65 | distinct display rotations receive distinct hints |
| `SizeSelection.Quot3` | src/main/java/com/lvshi/camera/CameraKit.kt:428 | Kotlin's `/ 3` truncates toward zero: the remainder is below 3 in magnitude and carries the sign of the dividend |
| `SizeSelection.FirstVideoCandidate` | src/main/java/com/lvshi/camera/CameraKit.kt:427-428 | `firstOrNull`: the index of the first 4:3 candidate at most 1080 wide, or none when no candidate qualifies |
| `SizeSelection.ChooseVideoSize` | src/main/java/com/lvshi/camera/CameraKit.kt:427-429 | the result is a candidate; if it qualifies no earlier candidate does; otherwise it is the last candidate and none qualifies |
| `SizeSelection.NearestFrom` | src/main/java/com/lvshi/camera/CameraKit.kt:456-469 | reference definition: none exactly when no eligible candidate, else the earliest eligible index of least width distance |
| `SizeSelection.SuitableIndex` | src/main/java/com/lvshi/camera/CameraKit.kt:446-470 | a valid index; 0 when no same-aspect candidate is eligible, else the earliest nearest same-aspect one |
| `SizeSelection.ExactWidthWins` | src/main/java/com/lvshi/camera/CameraKit.kt:460-463 | if a same-aspect candidate has exactly the target width, the first such candidate is selected |
| `SizeSelection.AspectFilters` | src/main/java/com/lvshi/camera/CameraKit.kt:458-459 | while an eligible candidate exists, the selected one has the reference aspect ratio |
| `SizeSelection.NearestSameAspect` | src/main/java/com/lvshi/camera/CameraKit.kt:402-424 | the loop with its early return and strict `>` update returns one of the offered sizes, exactly the candidate at SuitableIndex |
| `SizeSelection.GetSuitableSize` | src/main/java/com/lvshi/camera/CameraKit.kt:446-470 | the result is an input element, the one at SuitableIndex, and it does not depend on `height` |
| `SizeSelection.SearchWidthFromInputs` | src/main/java/com/lvshi/camera/CameraKit.kt:438-441 | for a right-angle sensor, the search width is the view height exactly when one of the sensor orientation and the display rotation is sideways and the other is not, and the view width otherwise |
| `SizeSelection.ChooseOptimalSize` | src/main/java/com/lvshi/camera/CameraKit.kt:432-443 | the preview size is one of the offered sizes, the SuitableIndex candidate for the rotation-swapped width against the video size's aspect ratio |
| `SizeSelection.InitConfigSizes` | src/main/java/com/lvshi/camera/CameraKit.kt:358-369 | the legacy preview size is searched at mPreviewWidth and the picture size at the chosen preview width, both at the fixed 1440:1080 ratio |
| `CameraLifecycle.OppositeLens` | src/main/java/com/lvshi/camera/CameraKit.kt:258-259 | switchCamera picks a lens, and the front one exactly when the current id is not the front one |
| `CameraLifecycle.OpenProgress` | src/main/java/com/lvshi/camera/CameraKit.kt:260-275 | the open sequence completes exactly when a permit is free and the lens is usable |
| `CameraLifecycle.CameraKit.constructor` | src/main/java/com/lvshi/camera/CameraKit.kt:67-120 | the lock starts with one permit and no device, session, recorder, path or recording flag |
| `CameraLifecycle.CameraKit.IsFrontCamera` | src/main/java/com/lvshi/camera/CameraKit.kt:279 | true exactly when the current id is the front lens; fails while no id was ever assigned |
| `CameraLifecycle.CameraKit.OpenLens` | src/main/java/com/lvshi/camera/CameraKit.kt:291-307 | stage by stage: the permit taken, the id made current, the sensor orientation read, the video and preview sizes chosen, or the exception that stops it |
| `CameraLifecycle.CameraKit.StartCameraPreview` | src/main/java/com/lvshi/camera/CameraKit.kt:285-311 | a recorder is created, then the open sequence runs for the front lens; it throws LockTimeout when no permit is free |
| `CameraLifecycle.CameraKit.SwitchCamera` | src/main/java/com/lvshi/camera/CameraKit.kt:255-277 | device and session are released, then the open sequence runs for the opposite lens; with no current id it throws before taking the lock |
| `CameraLifecycle.CameraKit.OnOpened` | src/main/java/com/lvshi/camera/CameraKit.kt:160-165 | gives back exactly one permit and holds the device; nothing else changes |
| `CameraLifecycle.CameraKit.OnDisconnected` | src/main/java/com/lvshi/camera/CameraKit.kt:168-173 | gives back exactly one permit and leaves no device |
| `CameraLifecycle.CameraKit.OnError` | src/main/java/com/lvshi/camera/CameraKit.kt:176-181 | gives back exactly one permit and leaves no device |
| `CameraLifecycle.CameraKit.OnPreviewSessionConfigured` | src/main/java/com/lvshi/camera/CameraKit.kt:204-207 | the preview session is held; nothing else changes |
| `CameraLifecycle.CameraKit.OnRecordSessionConfigured` | src/main/java/com/lvshi/camera/CameraKit.kt:517-524 | the recording session is held and the recording flag is raised |
| `CameraLifecycle.CameraKit.OnConfigureFailed` | src/main/java/com/lvshi/camera/CameraKit.kt:526-528 | a failed session configuration changes nothing |
| `CameraLifecycle.CameraKit.StartRecordVideo` | src/main/java/com/lvshi/camera/CameraKit.kt:487-533 | the path is stored even with no device; with a device the preview session is closed |
| `CameraLifecycle.CameraKit.StopRecordVideo` | src/main/java/com/lvshi/camera/CameraKit.kt:592-602 | the path is always cleared, the flag is lowered when a recorder exists, and with `release` device and session are gone |
| `CameraLifecycle.CameraKit.Release` | src/main/java/com/lvshi/camera/CameraKit.kt:607-619 | the permit count is unchanged; unless blocked, device, session and recorder are gone |
| `CameraLifecycle.CameraKit.ReleaseCamera` | src/main/java/com/lvshi/camera/CameraKit.kt:624-628 | both the session and the device are gone afterwards |
| `CameraLifecycle.CameraKit.ClosePreviewSession` | src/main/java/com/lvshi/camera/CameraKit.kt:243-252 | no session afterwards; nothing else changes |
| `CameraLifecycle.RecordSwitchRelease` | src/main/java/com/lvshi/camera/CameraKit.kt:255-311 | preview, record, stop, switch, release: recording is observed, the path is cleared, front turns to back, one permit remains |
| `CameraLifecycle.StartTwiceThenError` | src/main/java/com/lvshi/camera/CameraKit.kt:285-293 | a second start before the first open completes throws LockTimeout without taking a second permit; an error callback restores the one permit |

## Left out

- Floating-point aspect tests (lines 48, 412, 454, 459): replaced by the exact cross-multiplication `SameAspect`. This is a deliberate deviation: float rounding, and a zero-width reference size (NaN or infinite ratio), are not modelled.
- 32-bit overflow outside the comparator: the Ints in `height * 4` (chooseVideoSize), `width - size.width` (getSuitableSize) and the angle sums are taken as unbounded. They wrap only for sizes beyond 2^29 or for sensor orientations near `Int.MAX_VALUE`.
- `Orientation.DisplayOrientation`: the back-camera range is stated for `orientation >= 0`. The code keeps it in range down to -90.
- The legacy (API < 21) lifecycle is not modelled as state: `openCamera1`, `startCamera1Preview`, `stopCameraPreview`, the `initConfig` flash/focus/format settings, the legacy branch of `startRecordVideo` and the legacy branch of `releaseCamera`. Only their size searches (`InitConfigSizes`) and `setDisplayOrientation`'s arithmetic are modelled.
- `startPreview`, `updatePreview`, `setUpCaptureRequestBuilder` and `setUpMediaRecorder` issue hardware and recorder requests only. Their state effects are in `OnOpened` and the session callbacks. The hint `setUpMediaRecorder` picks is `OrientationHint`, and the recorder's configuration is not stored.
- MediaRecorder's own state checks are not modelled. For example, `stop()` before `start()` throws, which would skip clearing `videoPath`. The recorder's calls are taken to succeed.
- `startCameraPreview` replaces any earlier recorder without releasing it. With a presence flag this leak is not visible.
- Threading is not modelled: the background HandlerThread start/stop, and the main-looper post inside the recording `onConfigured`, which is taken to run at once.
- Lock waiting: `tryAcquire(2500 ms)` succeeds exactly when a permit is free. `release()`'s unbounded `acquire()` with no free permit is reported as `blocked`. Another thread returning the permit meanwhile is not modelled.
- A null `SENSOR_ORIENTATION` (the `!!` at lines 269 and 301) is not modelled. The sensor orientation is always an Int in the characteristics.
- The `isRecordingVideo()` getter is the field read. `mainHnadler`, the texture buffer sizes and the logs are not modelled.
- `CameraView.kt`, the OpenGL drawing and filter classes, `OpenGLUtils.kt` and `LogUtil.java` are not part of this model.
