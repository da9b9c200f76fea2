/**
 * The rotation arithmetic of CameraKit: the total preview rotation of the
 * Camera2 path (getRotation), the legacy display orientation
 * (setDisplayOrientation) and the recorder orientation-hint tables. The
 * display rotation and the sensor orientation, which the source reads from
 * the window manager and the camera characteristics, are parameters.
 */
module Orientation {
  import opened Wrappers

  /** android.view.Surface.ROTATION_0 .. ROTATION_270. */
  const ROTATION_0: int := 0
  const ROTATION_90: int := 1
  const ROTATION_180: int := 2
  const ROTATION_270: int := 3

  const SENSOR_ORIENTATION_DEFAULT_DEGREES: int := 90
  const SENSOR_ORIENTATION_INVERSE_DEGREES: int := 270

  const DEFAULT_ORIENTATIONS: map<int, int> :=
    map[ROTATION_0 := 90, ROTATION_90 := 0, ROTATION_180 := 270, ROTATION_270 := 180]
  const INVERSE_ORIENTATIONS: map<int, int> :=
    map[ROTATION_0 := 270, ROTATION_90 := 180, ROTATION_180 := 90, ROTATION_270 := 0]

  predicate IsDisplayRotation(rotation: int) {
    ROTATION_0 <= rotation <= ROTATION_270
  }

  predicate IsRightAngleMultiple(degrees: int) {
    degrees == 0 || degrees == 90 || degrees == 180 || degrees == 270
  }

  /** A total rotation under which the sensor's width and height are exchanged (`swapRotation`). */
  predicate IsQuarterTurn(totalRotation: int) {
    totalRotation == 90 || totalRotation == 270
  }

  /** Kotlin's `a % 360` on `Int`: it truncates toward zero, so the remainder takes the sign of the dividend. */
  function Rem360(a: int): (r: int)
    ensures -360 < r < 360
    ensures a >= 0 ==> 0 <= r
    ensures a <= 0 ==> r <= 0
    ensures (a - r) % 360 == 0
  {
    if a >= 0 then a % 360 else -((-a) % 360)
  }

  /** `SparseIntArray.get(key)`: the stored value, or 0 for a key that was never appended. */
  function SparseGet(table: map<int, int>, key: int): int
  {
    if key in table then table[key] else 0
  }

  /**
   * The `when` of getRotation; a value outside ROTATION_0..ROTATION_270 falls
   * through unchanged. On the four rotations it is the DEFAULT_ORIENTATIONS table.
   */
  function CompensatedRotation(displayRotation: int): (c: int)
    ensures IsDisplayRotation(displayRotation) ==> c == SparseGet(DEFAULT_ORIENTATIONS, displayRotation)
    ensures !IsDisplayRotation(displayRotation) ==> c == displayRotation
  {
    if displayRotation == ROTATION_0 then 90
    else if displayRotation == ROTATION_90 then 0
    else if displayRotation == ROTATION_180 then 270
    else if displayRotation == ROTATION_270 then 180
    else displayRotation
  }

  /** getRotation: the total rotation between the sensor and the display. */
  function GetRotation(displayRotation: int, sensorOrientation: int): (r: int)
    ensures 0 <= displayRotation && 0 <= sensorOrientation ==> 0 <= r < 360
  {
    Rem360(CompensatedRotation(displayRotation) + sensorOrientation + 270)
  }

  /** The `when` of setDisplayOrientation: the display rotation in degrees; 0 for an unknown value. */
  function Degrees(rotation: int): (d: int)
    ensures IsRightAngleMultiple(d)
    ensures IsDisplayRotation(rotation) ==> d == 90 * rotation
  {
    if rotation == ROTATION_0 then 0
    else if rotation == ROTATION_90 then 90
    else if rotation == ROTATION_180 then 180
    else if rotation == ROTATION_270 then 270
    else 0
  }

  /** setDisplayOrientation: the legacy preview orientation for a front (mirrored) or back camera. */
  function DisplayOrientation(front: bool, orientation: int, rotation: int): (r: int)
    ensures front ==> 0 <= r < 360
    ensures !front && 0 <= orientation ==> 0 <= r < 360
  {
    var degrees := Degrees(rotation);
    if front then
      Rem360(360 - Rem360(orientation + degrees))
    else
      Rem360(orientation - degrees + 360)
  }

  /** setUpMediaRecorder: the orientation hint chosen by sensor orientation, or none for any other sensor orientation. */
  function OrientationHint(sensorOrientation: int, rotation: int): (hint: Option<int>)
    ensures hint.Some? <==>
      sensorOrientation == SENSOR_ORIENTATION_DEFAULT_DEGREES || sensorOrientation == SENSOR_ORIENTATION_INVERSE_DEGREES
    ensures hint.Some? ==> IsRightAngleMultiple(hint.value)
  {
    if sensorOrientation == SENSOR_ORIENTATION_DEFAULT_DEGREES then
      Some(SparseGet(DEFAULT_ORIENTATIONS, rotation))
    else if sensorOrientation == SENSOR_ORIENTATION_INVERSE_DEGREES then
      Some(SparseGet(INVERSE_ORIENTATIONS, rotation))
    else
      None
  }

  /**
   * The total rotation is the sensor orientation less the display rotation,
   * modulo 360 (Dafny's `%` is the mathematical, non-negative remainder).
   */
  lemma GetRotationIsSensorLessDisplay(displayRotation: int, sensorOrientation: int)
    requires IsDisplayRotation(displayRotation) && 0 <= sensorOrientation
    ensures GetRotation(displayRotation, sensorOrientation) == (sensorOrientation - Degrees(displayRotation)) % 360
  {
  }

  /**
   * With a right-angle sensor orientation, the dimensions are swapped exactly
   * when one of the sensor and the display is turned sideways and the other is not.
   */
  lemma QuarterTurnSwap(displayRotation: int, sensorOrientation: int)
    requires IsDisplayRotation(displayRotation) && IsRightAngleMultiple(sensorOrientation)
    ensures IsQuarterTurn(GetRotation(displayRotation, sensorOrientation))
        <==> (IsQuarterTurn(sensorOrientation) != (displayRotation == ROTATION_90 || displayRotation == ROTATION_270))
  {
    GetRotationIsSensorLessDisplay(displayRotation, sensorOrientation);
  }

  /** The front-camera formula mirrors: the orientation and the display rotation together are undone modulo 360. */
  lemma FrontOrientationMirrors(orientation: int, rotation: int)
    requires 0 <= orientation
    ensures DisplayOrientation(true, orientation, rotation) == (-(orientation + Degrees(rotation))) % 360
  {
  }

  /** The back-camera formula subtracts the display rotation from the sensor orientation modulo 360. */
  lemma BackOrientationSubtracts(orientation: int, rotation: int)
    requires 0 <= orientation
    ensures DisplayOrientation(false, orientation, rotation) == (orientation - Degrees(rotation)) % 360
  {
  }

  /** The Camera2 total rotation agrees with the legacy back-camera display orientation. */
  lemma PreviewRotationIsBackOrientation(displayRotation: int, sensorOrientation: int)
    requires IsDisplayRotation(displayRotation) && 0 <= sensorOrientation
    ensures GetRotation(displayRotation, sensorOrientation) == DisplayOrientation(false, sensorOrientation, displayRotation)
  {
  }

  /** The two hint tables are mirror images: each INVERSE entry is the DEFAULT entry turned half way round. */
  lemma InverseMirrorsDefault(rotation: int)
    requires IsDisplayRotation(rotation)
    ensures SparseGet(INVERSE_ORIENTATIONS, rotation) == (SparseGet(DEFAULT_ORIENTATIONS, rotation) + 180) % 360
  {
  }

  /** Whenever a hint is set, it is the total rotation getRotation computes for the same sensor and display. */
  lemma HintIsPreviewRotation(sensorOrientation: int, rotation: int)
    requires IsDisplayRotation(rotation)
    requires sensorOrientation == SENSOR_ORIENTATION_DEFAULT_DEGREES || sensorOrientation == SENSOR_ORIENTATION_INVERSE_DEGREES
    ensures OrientationHint(sensorOrientation, rotation) == Some(GetRotation(rotation, sensorOrientation))
  {
  }

  /** Different display rotations give different hints: each table is a permutation of the four right angles. */
  lemma HintsDistinguishRotations(sensorOrientation: int, r1: int, r2: int)
    requires IsDisplayRotation(r1) && IsDisplayRotation(r2) && r1 != r2
    requires sensorOrientation == SENSOR_ORIENTATION_DEFAULT_DEGREES || sensorOrientation == SENSOR_ORIENTATION_INVERSE_DEGREES
    ensures OrientationHint(sensorOrientation, r1) != OrientationHint(sensorOrientation, r2)
  {
  }
}
