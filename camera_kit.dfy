/**
 * The camera lifecycle bookkeeping of CameraKit on the Camera2 path: the
 * open/close lock as a permit count, the presence of the camera device, the
 * capture session and the media recorder, the recording target, the
 * recording flag and the current camera id. Hardware calls become presence
 * flags; each asynchronous hardware callback is a method a caller may
 * invoke; the camera service is a parameter mapping camera ids to their
 * characteristics; exceptions are an Outcome.
 */
module CameraLifecycle {
  import opened Wrappers
  import opened Sizes
  import SizeSelection
  import Orientation

  /** CameraCharacteristics.LENS_FACING_FRONT and LENS_FACING_BACK as strings: the camera ids the source looks for. */
  const LENS_FACING_FRONT: string := "0"
  const LENS_FACING_BACK: string := "1"

  /** The permits `cameraOpenCloseLock` is created with. */
  const LOCK_PERMITS: nat := 1

  /** The output sizes a camera supports for a MediaRecorder and for a SurfaceTexture. */
  datatype StreamConfigurationMap = StreamConfigurationMap(recorderSizes: seq<Size>, textureSizes: seq<Size>)

  /** What the camera service reports for one camera id. */
  datatype Characteristics = Characteristics(streamMap: Option<StreamConfigurationMap>, sensorOrientation: int)

  /** The exceptions the lifecycle operations throw to their caller. */
  datatype Failure =
    | LockTimeout              // tryAcquire(2500 ms) failed: "Time out waiting to lock camera opening."
    | NoSuchCamera             // `cameraIdList.filter { it == lens }[0]` on an empty list
    | NoStreamConfigurationMap // "Cannot get available preview/video sizes"
    | NoOutputSizes            // an empty size array indexed by chooseVideoSize or getSuitableSize
    | UninitializedCameraId    // `currentCameraId` read before it was ever assigned

  datatype Outcome = Returned | Threw(failure: Failure)

  /** The lens switchCamera selects: the front lens unless the current one is already the front lens. */
  function OppositeLens(cameraId: string): (lens: string)
    ensures lens == LENS_FACING_FRONT || lens == LENS_FACING_BACK
    ensures lens == LENS_FACING_FRONT <==> cameraId != LENS_FACING_FRONT
  {
    if cameraId != LENS_FACING_FRONT then LENS_FACING_FRONT else LENS_FACING_BACK
  }

  /** A camera that can be opened and sized: listed, with a stream configuration map and non-empty size lists. */
  predicate Usable(cameras: map<string, Characteristics>, lens: string) {
    && lens in cameras
    && cameras[lens].streamMap.Some?
    && |cameras[lens].streamMap.value.recorderSizes| > 0
    && |cameras[lens].streamMap.value.textureSizes| > 0
  }

  /**
   * How far the open sequence of startCameraPreview and switchCamera gets:
   * 0 the lock times out, 1 the lock is taken but the camera id is missing,
   * 2 the id is current but there is no stream map, 3 the sensor orientation
   * is read but there are no recorder sizes, 4 the video size is chosen but
   * there are no texture sizes, 5 the preview size is chosen and the camera
   * open is requested.
   */
  function OpenProgress(permits: nat, lens: string, cameras: map<string, Characteristics>): (p: nat)
    ensures p <= 5
    ensures p == 5 <==> permits > 0 && Usable(cameras, lens)
  {
    if permits == 0 then 0
    else if lens !in cameras then 1
    else if cameras[lens].streamMap.None? then 2
    else if |cameras[lens].streamMap.value.recorderSizes| == 0 then 3
    else if |cameras[lens].streamMap.value.textureSizes| == 0 then 4
    else 5
  }

  /** The exception that stops the open sequence at a stage below 5. */
  function FailureAt(p: nat): Failure
    requires p < 5
  {
    if p == 0 then LockTimeout
    else if p == 1 then NoSuchCamera
    else if p == 2 then NoStreamConfigurationMap
    else NoOutputSizes
  }

  class CameraKit {
    /** The permits of `cameraOpenCloseLock`. */
    var lockPermits: nat
    var hasCameraDevice: bool
    var hasCaptureSession: bool
    var hasMediaRecorder: bool
    var videoPath: Option<string>
    var isRecordingVideo: bool
    /** A `lateinit` property: None until a camera is first selected. */
    var currentCameraId: Option<string>
    var sensorOrientation: int
    /** `lateinit` properties: None until first chosen. */
    var videoSize: Option<Size>
    var previewSize: Option<Size>

    constructor ()
      ensures lockPermits == LOCK_PERMITS
      ensures !hasCameraDevice && !hasCaptureSession && !hasMediaRecorder
      ensures videoPath == None && !isRecordingVideo
      ensures currentCameraId == None && sensorOrientation == 0
      ensures videoSize == None && previewSize == None
    {
      lockPermits := LOCK_PERMITS;
      hasCameraDevice, hasCaptureSession, hasMediaRecorder := false, false, false;
      videoPath := None;
      isRecordingVideo := false;
      currentCameraId := None;
      sensorOrientation := 0;
      videoSize, previewSize := None, None;
    }

    /** isFrontCamera; reading the unassigned `lateinit` id throws, shown as None. */
    function IsFrontCamera(): (front: Option<bool>)
      reads this
      ensures front.Some? <==> currentCameraId.Some?
      ensures front == Some(true) <==> currentCameraId == Some(LENS_FACING_FRONT)
    {
      match currentCameraId
      case None => None
      case Some(id) => Some(id == LENS_FACING_FRONT)
    }

    /** The effect of OpenLens on the fields it updates, stage by stage (see OpenProgress). */
    twostate predicate OpenedLens(lens: string, width: int, height: int,
                                  cameras: map<string, Characteristics>, displayRotation: int, outcome: Outcome)
      reads this
    {
      var p := OpenProgress(old(lockPermits), lens, cameras);
      && outcome == (if p == 5 then Returned else Threw(FailureAt(p)))
      && lockPermits == (if p >= 1 then old(lockPermits) - 1 else old(lockPermits))
      && currentCameraId == (if p >= 2 then Some(lens) else old(currentCameraId))
      && sensorOrientation == (if p >= 3 then cameras[lens].sensorOrientation else old(sensorOrientation))
      && videoSize == (if p >= 4 then Some(SizeSelection.ChooseVideoSize(cameras[lens].streamMap.value.recorderSizes))
                       else old(videoSize))
      && previewSize == (if p == 5 then
                           var sizes := cameras[lens].streamMap.value.textureSizes;
                           var width := SizeSelection.SearchWidth(width, height,
                                          Orientation.GetRotation(displayRotation, cameras[lens].sensorOrientation));
                           Some(sizes[SizeSelection.SuitableIndex(sizes, width, videoSize.value)])
                         else old(previewSize))
    }

    /**
     * The open sequence shared by startCameraPreview and switchCamera: take a
     * lock permit, make `lens` current, read its characteristics, choose the
     * video and preview sizes and request the open. A permit taken before a
     * later exception is not given back.
     */
    method OpenLens(lens: string, width: int, height: int, cameras: map<string, Characteristics>, displayRotation: int)
      returns (outcome: Outcome)
      requires lens == LENS_FACING_FRONT || lens == LENS_FACING_BACK
      modifies this
      ensures OpenedLens(lens, width, height, cameras, displayRotation, outcome)
      ensures hasCameraDevice == old(hasCameraDevice) && hasCaptureSession == old(hasCaptureSession)
      ensures hasMediaRecorder == old(hasMediaRecorder)
      ensures videoPath == old(videoPath) && isRecordingVideo == old(isRecordingVideo)
    {
      if lockPermits == 0 {
        return Threw(LockTimeout);
      }
      lockPermits := lockPermits - 1;
      if lens !in cameras {
        return Threw(NoSuchCamera);
      }
      currentCameraId := Some(lens);
      var characteristics := cameras[lens];
      if characteristics.streamMap.None? {
        return Threw(NoStreamConfigurationMap);
      }
      var streamMap := characteristics.streamMap.value;
      sensorOrientation := characteristics.sensorOrientation;
      if |streamMap.recorderSizes| == 0 {
        return Threw(NoOutputSizes);
      }
      var video := SizeSelection.ChooseVideoSize(streamMap.recorderSizes);
      videoSize := Some(video);
      if |streamMap.textureSizes| == 0 {
        return Threw(NoOutputSizes);
      }
      var preview := SizeSelection.ChooseOptimalSize(streamMap.textureSizes, width, height, video,
                                                     displayRotation, sensorOrientation);
      previewSize := Some(preview);
      // openCamera: the result arrives later through OnOpened, OnDisconnected or OnError.
      return Returned;
    }

    /** startCameraPreview: a new media recorder, then the open sequence for the front lens. */
    method StartCameraPreview(width: int, height: int, cameras: map<string, Characteristics>, displayRotation: int)
      returns (outcome: Outcome)
      modifies this
      ensures hasMediaRecorder
      ensures OpenedLens(LENS_FACING_FRONT, width, height, cameras, displayRotation, outcome)
      ensures hasCameraDevice == old(hasCameraDevice) && hasCaptureSession == old(hasCaptureSession)
      ensures videoPath == old(videoPath) && isRecordingVideo == old(isRecordingVideo)
    {
      hasMediaRecorder := true;
      outcome := OpenLens(LENS_FACING_FRONT, width, height, cameras, displayRotation);
    }

    /**
     * switchCamera: release the camera, then the open sequence for the lens
     * opposite the current one. With no current camera yet, reading the id
     * throws before the lock is touched.
     */
    method SwitchCamera(width: int, height: int, cameras: map<string, Characteristics>, displayRotation: int)
      returns (outcome: Outcome)
      modifies this
      ensures !hasCameraDevice && !hasCaptureSession
      ensures old(currentCameraId).None? ==>
        outcome == Threw(UninitializedCameraId) && lockPermits == old(lockPermits) && currentCameraId == None
        && sensorOrientation == old(sensorOrientation) && videoSize == old(videoSize) && previewSize == old(previewSize)
      ensures old(currentCameraId).Some? ==>
        OpenedLens(OppositeLens(old(currentCameraId).value), width, height, cameras, displayRotation, outcome)
      ensures hasMediaRecorder == old(hasMediaRecorder)
      ensures videoPath == old(videoPath) && isRecordingVideo == old(isRecordingVideo)
    {
      ReleaseCamera();
      if currentCameraId.None? {
        return Threw(UninitializedCameraId);
      }
      var lens := OppositeLens(currentCameraId.value);
      outcome := OpenLens(lens, width, height, cameras, displayRotation);
    }

    /** stateCallback.onOpened: give back the lock permit and hold the device; the preview session request that follows completes in OnPreviewSessionConfigured. */
    method OnOpened()
      modifies this
      ensures lockPermits == old(lockPermits) + 1
      ensures hasCameraDevice
      ensures hasCaptureSession == old(hasCaptureSession) && hasMediaRecorder == old(hasMediaRecorder)
      ensures videoPath == old(videoPath) && isRecordingVideo == old(isRecordingVideo)
      ensures currentCameraId == old(currentCameraId) && sensorOrientation == old(sensorOrientation)
      ensures videoSize == old(videoSize) && previewSize == old(previewSize)
    {
      lockPermits := lockPermits + 1;
      hasCameraDevice := true;
    }

    /** stateCallback.onDisconnected: give back the lock permit and close the device. */
    method OnDisconnected()
      modifies this
      ensures lockPermits == old(lockPermits) + 1
      ensures !hasCameraDevice
      ensures hasCaptureSession == old(hasCaptureSession) && hasMediaRecorder == old(hasMediaRecorder)
      ensures videoPath == old(videoPath) && isRecordingVideo == old(isRecordingVideo)
      ensures currentCameraId == old(currentCameraId) && sensorOrientation == old(sensorOrientation)
      ensures videoSize == old(videoSize) && previewSize == old(previewSize)
    {
      lockPermits := lockPermits + 1;
      hasCameraDevice := false;
    }

    /** stateCallback.onError: the same as onDisconnected; the error code is only logged. */
    method OnError(error: int)
      modifies this
      ensures lockPermits == old(lockPermits) + 1
      ensures !hasCameraDevice
      ensures hasCaptureSession == old(hasCaptureSession) && hasMediaRecorder == old(hasMediaRecorder)
      ensures videoPath == old(videoPath) && isRecordingVideo == old(isRecordingVideo)
      ensures currentCameraId == old(currentCameraId) && sensorOrientation == old(sensorOrientation)
      ensures videoSize == old(videoSize) && previewSize == old(previewSize)
    {
      lockPermits := lockPermits + 1;
      hasCameraDevice := false;
    }

    /** onConfigured of the preview session: hold the session and start the repeating preview request. */
    method OnPreviewSessionConfigured()
      modifies this
      ensures hasCaptureSession
      ensures lockPermits == old(lockPermits) && hasCameraDevice == old(hasCameraDevice)
      ensures hasMediaRecorder == old(hasMediaRecorder)
      ensures videoPath == old(videoPath) && isRecordingVideo == old(isRecordingVideo)
      ensures currentCameraId == old(currentCameraId) && sensorOrientation == old(sensorOrientation)
      ensures videoSize == old(videoSize) && previewSize == old(previewSize)
    {
      hasCaptureSession := true;
    }

    /**
     * onConfigured of the recording session: hold the session, then (in the
     * block posted to the main thread, taken as running at once) start the
     * recorder if there is one and raise the recording flag in any case.
     */
    method OnRecordSessionConfigured()
      modifies this
      ensures hasCaptureSession && isRecordingVideo
      ensures lockPermits == old(lockPermits) && hasCameraDevice == old(hasCameraDevice)
      ensures hasMediaRecorder == old(hasMediaRecorder) && videoPath == old(videoPath)
      ensures currentCameraId == old(currentCameraId) && sensorOrientation == old(sensorOrientation)
      ensures videoSize == old(videoSize) && previewSize == old(previewSize)
    {
      hasCaptureSession := true;
      isRecordingVideo := true;
    }

    /** onConfigureFailed of either session: only logged, nothing changes. */
    method OnConfigureFailed()
      ensures unchanged(this)
    {
    }

    /**
     * startRecordVideo: remember the path first; with no device, return.
     * Otherwise close the preview session and request a recording session
     * (completed by OnRecordSessionConfigured). With no recorder, the
     * `mediaRecorder!!` dereference throws inside the `try` and is swallowed.
     */
    method StartRecordVideo(path: string)
      modifies this
      ensures videoPath == Some(path)
      ensures hasCaptureSession == (old(hasCaptureSession) && !old(hasCameraDevice))
      ensures lockPermits == old(lockPermits) && hasCameraDevice == old(hasCameraDevice)
      ensures hasMediaRecorder == old(hasMediaRecorder) && isRecordingVideo == old(isRecordingVideo)
      ensures currentCameraId == old(currentCameraId) && sensorOrientation == old(sensorOrientation)
      ensures videoSize == old(videoSize) && previewSize == old(previewSize)
    {
      videoPath := Some(path);
      if !hasCameraDevice {
        return;
      }
      ClosePreviewSession();
    }

    /**
     * stopRecordVideo: stop and reset the recorder and lower the flag when a
     * recorder exists, always forget the path, and release the camera when
     * asked to.
     */
    method StopRecordVideo(release: bool)
      modifies this
      ensures videoPath == None
      ensures isRecordingVideo == (old(isRecordingVideo) && !old(hasMediaRecorder))
      ensures release ==> !hasCameraDevice && !hasCaptureSession
      ensures !release ==> hasCameraDevice == old(hasCameraDevice) && hasCaptureSession == old(hasCaptureSession)
      ensures lockPermits == old(lockPermits) && hasMediaRecorder == old(hasMediaRecorder)
      ensures currentCameraId == old(currentCameraId) && sensorOrientation == old(sensorOrientation)
      ensures videoSize == old(videoSize) && previewSize == old(previewSize)
    {
      if hasMediaRecorder {
        isRecordingVideo := false;
      }
      videoPath := None;
      if release {
        ReleaseCamera();
      }
    }

    /**
     * release: acquire the lock without a timeout, release the camera and the
     * recorder, and give the permit back in `finally`. With no permit free,
     * `acquire()` waits for another thread to return one; in this sequential
     * model the call is then blocked and changes nothing.
     */
    method Release() returns (blocked: bool)
      modifies this
      ensures lockPermits == old(lockPermits)
      ensures blocked <==> old(lockPermits) == 0
      ensures blocked ==> unchanged(this)
      ensures !blocked ==> !hasCameraDevice && !hasCaptureSession && !hasMediaRecorder
      ensures videoPath == old(videoPath) && isRecordingVideo == old(isRecordingVideo)
      ensures currentCameraId == old(currentCameraId) && sensorOrientation == old(sensorOrientation)
      ensures videoSize == old(videoSize) && previewSize == old(previewSize)
    {
      if lockPermits == 0 {
        return true;
      }
      lockPermits := lockPermits - 1;
      ReleaseCamera();
      hasMediaRecorder := false;
      lockPermits := lockPermits + 1;
      blocked := false;
    }

    /** releaseCamera: close the capture session and the device. */
    method ReleaseCamera()
      modifies this
      ensures !hasCameraDevice && !hasCaptureSession
      ensures lockPermits == old(lockPermits) && hasMediaRecorder == old(hasMediaRecorder)
      ensures videoPath == old(videoPath) && isRecordingVideo == old(isRecordingVideo)
      ensures currentCameraId == old(currentCameraId) && sensorOrientation == old(sensorOrientation)
      ensures videoSize == old(videoSize) && previewSize == old(previewSize)
    {
      ClosePreviewSession();
      hasCameraDevice := false;
    }

    /** closePreviewSession: stop, abort and close the capture session, if any. */
    method ClosePreviewSession()
      modifies this
      ensures !hasCaptureSession
      ensures lockPermits == old(lockPermits) && hasCameraDevice == old(hasCameraDevice)
      ensures hasMediaRecorder == old(hasMediaRecorder)
      ensures videoPath == old(videoPath) && isRecordingVideo == old(isRecordingVideo)
      ensures currentCameraId == old(currentCameraId) && sensorOrientation == old(sensorOrientation)
      ensures videoSize == old(videoSize) && previewSize == old(previewSize)
    {
      hasCaptureSession := false;
    }
  }

  /**
   * Preview, record, stop, switch and release on a fresh CameraKit with both
   * lenses usable: recording is seen while the session runs, stopping clears
   * the path, the switch turns the front lens into the back one, and release
   * leaves the single permit in place.
   */
  method RecordSwitchRelease(cameras: map<string, Characteristics>, displayRotation: int)
    returns (started: Outcome, recording: bool, pathAfterStop: Option<string>,
             frontBefore: Option<bool>, frontAfter: Option<bool>, permitsAfter: nat, blocked: bool)
    requires Usable(cameras, LENS_FACING_FRONT) && Usable(cameras, LENS_FACING_BACK)
    ensures started == Returned && recording && pathAfterStop == None
    ensures frontBefore == Some(true) && frontAfter == Some(false)
    ensures !blocked && permitsAfter == LOCK_PERMITS
  {
    var kit := new CameraKit();
    started := kit.StartCameraPreview(1440, 1080, cameras, displayRotation);
    kit.OnOpened();
    kit.OnPreviewSessionConfigured();
    kit.StartRecordVideo("/tmp/out.mp4");
    kit.OnRecordSessionConfigured();
    recording := kit.isRecordingVideo;
    kit.StopRecordVideo(false);
    pathAfterStop := kit.videoPath;
    frontBefore := kit.IsFrontCamera();
    var switched := kit.SwitchCamera(1440, 1080, cameras, displayRotation);
    kit.OnOpened();
    frontAfter := kit.IsFrontCamera();
    blocked := kit.Release();
    permitsAfter := kit.lockPermits;
  }

  /**
   * Two starts before the first open completes: the second finds no permit
   * and throws, so the lock is never taken twice; an error callback for the
   * first open then restores the single permit with no device held.
   */
  method StartTwiceThenError(cameras: map<string, Characteristics>, displayRotation: int)
    returns (first: Outcome, second: Outcome, permitsBetween: nat, permitsAfter: nat, deviceAfter: bool)
    requires Usable(cameras, LENS_FACING_FRONT)
    ensures first == Returned && second == Threw(LockTimeout)
    ensures permitsBetween == 0 && permitsAfter == LOCK_PERMITS && !deviceAfter
  {
    var kit := new CameraKit();
    first := kit.StartCameraPreview(1440, 1080, cameras, displayRotation);
    second := kit.StartCameraPreview(1440, 1080, cameras, displayRotation);
    permitsBetween := kit.lockPermits;
    kit.OnError(1);
    permitsAfter := kit.lockPermits;
    deviceAfter := kit.hasCameraDevice;
  }
}
