/**
 * The resolution choices of CameraKit: the recording size (chooseVideoSize),
 * the aspect-filtered nearest-width search (the two getSuitableSize loops),
 * the rotation-aware preview choice (chooseOptimalSize) and the two searches
 * of the legacy initConfig.
 *
 * The source tests "same aspect ratio" in single-precision floating point;
 * here the test is the exact cross-multiplication SameAspect.
 */
module SizeSelection {
  import opened Wrappers
  import opened Sizes
  import Orientation

  /** The widest recording size chooseVideoSize accepts. */
  const MAX_VIDEO_WIDTH: int := 1080

  /** `Int.MAX_VALUE`, the initial `minDelta` of both getSuitableSize loops. */
  const INT_MAX: int := 0x7fff_ffff

  /**
   * mPreviewWidth x mPreviewHeight at construction. The legacy aspect ratio
   * mPreviewScale is computed from it once and never follows later updates
   * of mPreviewWidth.
   */
  const DEFAULT_PREVIEW: Size := Size(1440, 1080)

  // ---------------------------------------------------------------- chooseVideoSize

  /**
   * Kotlin's `Int` division by 3, which truncates toward zero: the remainder
   * `a - 3 * q` is smaller than 3 in magnitude and never has the opposite
   * sign of `a`, which determines `q`.
   */
  function Quot3(a: int): (q: int)
    ensures -3 < a - 3 * q < 3
    ensures a >= 0 ==> a - 3 * q >= 0
    ensures a <= 0 ==> a - 3 * q <= 0
  {
    if a >= 0 then a / 3 else -((-a) / 3)
  }

  /** The predicate of chooseVideoSize: 4:3 by `width == height * 4 / 3` in integer arithmetic, and at most 1080 wide. */
  predicate IsVideoCandidate(s: Size) {
    s.width == Quot3(s.height * 4) && s.width <= MAX_VIDEO_WIDTH
  }

  /** `firstOrNull { IsVideoCandidate(it) }`, as an index. */
  function FirstVideoCandidate(choices: seq<Size>): (k: Option<nat>)
    ensures k.Some? ==> k.value < |choices| && IsVideoCandidate(choices[k.value])
    ensures k.Some? ==> forall j :: 0 <= j < k.value ==> !IsVideoCandidate(choices[j])
    ensures k.None? ==> forall j :: 0 <= j < |choices| ==> !IsVideoCandidate(choices[j])
  {
    if |choices| == 0 then None
    else if IsVideoCandidate(choices[0]) then Some(0)
    else
      match FirstVideoCandidate(choices[1..])
      case None => None
      case Some(k) => Some(k + 1)
  }

  /**
   * chooseVideoSize: the first 4:3 candidate at most 1080 wide, otherwise the
   * last candidate. On an empty array the source indexes `choices[-1]` and
   * throws, so callers must pass a non-empty one.
   */
  function ChooseVideoSize(choices: seq<Size>): (r: Size)
    requires |choices| > 0
    ensures r in choices
    ensures IsVideoCandidate(r) ==>
      exists k :: 0 <= k < |choices| && choices[k] == r && forall j :: 0 <= j < k ==> !IsVideoCandidate(choices[j])
    ensures !IsVideoCandidate(r) ==>
      r == choices[|choices| - 1] && forall j :: 0 <= j < |choices| ==> !IsVideoCandidate(choices[j])
  {
    match FirstVideoCandidate(choices)
    case Some(k) => choices[k]
    case None => choices[|choices| - 1]
  }

  // ---------------------------------------------------------------- getSuitableSize

  /** The aspect test of getSuitableSize: `size` has the aspect ratio of `reference`. */
  predicate SameAspect(s: Size, reference: Size) {
    s.width * reference.height == s.height * reference.width
  }

  /** `Math.abs(width - size.width)`. */
  function Delta(width: int, s: Size): nat {
    if width >= s.width then width - s.width else s.width - width
  }

  /**
   * A candidate the loop can select: the same aspect ratio and a width
   * distance below the initial `minDelta`, since the update needs
   * `minDelta > delta`.
   */
  predicate Eligible(s: Size, width: int, reference: Size) {
    SameAspect(s, reference) && Delta(width, s) < INT_MAX
  }

  /** `k` is the earliest eligible index of [lo, hi) whose width distance is least. */
  ghost predicate IsNearest(sizes: seq<Size>, width: int, reference: Size, lo: nat, hi: nat, k: nat)
    requires hi <= |sizes|
  {
    && lo <= k < hi
    && Eligible(sizes[k], width, reference)
    && (forall j :: lo <= j < hi && Eligible(sizes[j], width, reference) ==> Delta(width, sizes[k]) <= Delta(width, sizes[j]))
    && (forall j :: lo <= j < k && Eligible(sizes[j], width, reference) ==> Delta(width, sizes[k]) < Delta(width, sizes[j]))
  }

  lemma NearestIsUnique(sizes: seq<Size>, width: int, reference: Size, lo: nat, hi: nat, k1: nat, k2: nat)
    requires hi <= |sizes|
    requires IsNearest(sizes, width, reference, lo, hi, k1) && IsNearest(sizes, width, reference, lo, hi, k2)
    ensures k1 == k2
  {
  }

  /** The nearest eligible candidate in sizes[lo..], found from the right; a reference definition independent of the loop. */
  function NearestFrom(sizes: seq<Size>, width: int, reference: Size, lo: nat): (k: Option<nat>)
    requires lo <= |sizes|
    ensures k.None? <==> forall j :: lo <= j < |sizes| ==> !Eligible(sizes[j], width, reference)
    ensures k.Some? ==> IsNearest(sizes, width, reference, lo, |sizes|, k.value)
    decreases |sizes| - lo
  {
    if lo == |sizes| then None
    else
      var rest := NearestFrom(sizes, width, reference, lo + 1);
      if !Eligible(sizes[lo], width, reference) then rest
      else if rest.None? || Delta(width, sizes[lo]) <= Delta(width, sizes[rest.value]) then Some(lo)
      else rest
  }

  /**
   * The index getSuitableSize returns: the earliest same-aspect candidate
   * nearest in width, or index 0 when no candidate shares the aspect ratio.
   */
  function SuitableIndex(sizes: seq<Size>, width: int, reference: Size): (k: nat)
    requires |sizes| > 0
    ensures k < |sizes|
    ensures (forall j :: 0 <= j < |sizes| ==> !Eligible(sizes[j], width, reference)) ==> k == 0
    ensures (exists j :: 0 <= j < |sizes| && Eligible(sizes[j], width, reference)) ==>
      IsNearest(sizes, width, reference, 0, |sizes|, k)
  {
    match NearestFrom(sizes, width, reference, 0)
    case None => 0
    case Some(k) => k
  }

  /** An exact width match of the right aspect wins, and the first such one does. */
  lemma ExactWidthWins(sizes: seq<Size>, width: int, reference: Size, i: nat)
    requires i < |sizes| && SameAspect(sizes[i], reference) && sizes[i].width == width
    ensures var k := SuitableIndex(sizes, width, reference);
      && SameAspect(sizes[k], reference) && sizes[k].width == width
      && forall j :: 0 <= j < k ==> !(SameAspect(sizes[j], reference) && sizes[j].width == width)
  {
  }

  /** A candidate of the wrong aspect ratio is never chosen while some candidate of the right one is eligible. */
  lemma AspectFilters(sizes: seq<Size>, width: int, reference: Size, i: nat)
    requires i < |sizes| && Eligible(sizes[i], width, reference)
    ensures SameAspect(sizes[SuitableIndex(sizes, width, reference)], reference)
  {
  }

  /**
   * The loop shared by both getSuitableSize functions: scan in order, return
   * at once on an exact width match of the right aspect, otherwise keep the
   * first strictly smaller width distance, falling back to index 0.
   */
  method NearestSameAspect(sizes: seq<Size>, width: int, reference: Size) returns (r: Size)
    requires |sizes| > 0
    ensures r in sizes
    ensures r == sizes[SuitableIndex(sizes, width, reference)]
  {
    var minDelta := INT_MAX;
    var index := 0;
    ghost var found := false;
    for i := 0 to |sizes|
      invariant index < |sizes|
      invariant forall j :: 0 <= j < i ==> !(SameAspect(sizes[j], reference) && sizes[j].width == width)
      invariant found <==> exists j :: 0 <= j < i && Eligible(sizes[j], width, reference)
      invariant found ==> IsNearest(sizes, width, reference, 0, i, index) && minDelta == Delta(width, sizes[index])
      invariant !found ==> index == 0 && minDelta == INT_MAX
    {
      var size := sizes[i];
      if SameAspect(size, reference) {
        var delta := Delta(width, size);
        if delta == 0 {
          assert IsNearest(sizes, width, reference, 0, |sizes|, i);
          NearestIsUnique(sizes, width, reference, 0, |sizes|, i, SuitableIndex(sizes, width, reference));
          r := size;
          return;
        }
        if minDelta > delta {
          minDelta := delta;
          index := i;
        }
      }
      found := found || Eligible(size, width, reference);
    }
    if found {
      NearestIsUnique(sizes, width, reference, 0, |sizes|, index, SuitableIndex(sizes, width, reference));
    }
    r := sizes[index];
  }

  /**
   * getSuitableSize of the Camera2 path: the reference aspect ratio is that of
   * `pictureSize` (the chosen video size). `height` is accepted and never read.
   */
  method GetSuitableSize(sizes: seq<Size>, width: int, height: int, pictureSize: Size) returns (r: Size)
    requires |sizes| > 0
    ensures r in sizes
    ensures r == sizes[SuitableIndex(sizes, width, pictureSize)]
  {
    r := NearestSameAspect(sizes, width, pictureSize);
  }

  /** The width chooseOptimalSize searches for: the view height when the total rotation is a quarter turn. */
  function SearchWidth(viewWidth: int, viewHeight: int, totalRotation: int): int
  {
    if Orientation.IsQuarterTurn(totalRotation) then viewHeight else viewWidth
  }

  /**
   * For a right-angle sensor, chooseOptimalSize searches at the view height
   * exactly when one of the sensor and the display is turned sideways and
   * the other is not, and at the view width otherwise.
   */
  lemma SearchWidthFromInputs(viewWidth: int, viewHeight: int, displayRotation: int, sensorOrientation: int)
    requires Orientation.IsDisplayRotation(displayRotation) && Orientation.IsRightAngleMultiple(sensorOrientation)
    ensures SearchWidth(viewWidth, viewHeight, Orientation.GetRotation(displayRotation, sensorOrientation))
         == if Orientation.IsQuarterTurn(sensorOrientation)
                != (displayRotation == Orientation.ROTATION_90 || displayRotation == Orientation.ROTATION_270)
            then viewHeight else viewWidth
  {
  }

  /**
   * chooseOptimalSize: swap the view's width and height on a quarter turn of
   * the total rotation (getRotation), then getSuitableSize against the
   * aspect ratio of `pictureSize`.
   */
  method ChooseOptimalSize(sizes: seq<Size>, viewWidth: int, viewHeight: int, pictureSize: Size,
                           displayRotation: int, sensorOrientation: int) returns (r: Size)
    requires |sizes| > 0
    ensures r in sizes
    ensures r == sizes[SuitableIndex(sizes,
                       SearchWidth(viewWidth, viewHeight, Orientation.GetRotation(displayRotation, sensorOrientation)),
                       pictureSize)]
  {
    var totalRotation := Orientation.GetRotation(displayRotation, sensorOrientation);
    var width := SearchWidth(viewWidth, viewHeight, totalRotation);
    var height := SearchWidth(viewHeight, viewWidth, totalRotation);
    r := GetSuitableSize(sizes, width, height, pictureSize);
  }

  /**
   * The size searches of the legacy initConfig: the preview size nearest the
   * current mPreviewWidth, then the picture size nearest the preview width
   * just chosen, both against the fixed 1440:1080 aspect ratio.
   */
  method InitConfigSizes(previewSizes: seq<Size>, pictureSizes: seq<Size>, previewWidth: int)
    returns (preview: Size, picture: Size)
    requires |previewSizes| > 0 && |pictureSizes| > 0
    ensures preview == previewSizes[SuitableIndex(previewSizes, previewWidth, DEFAULT_PREVIEW)]
    ensures picture == pictureSizes[SuitableIndex(pictureSizes, preview.width, DEFAULT_PREVIEW)]
  {
    preview := NearestSameAspect(previewSizes, previewWidth, DEFAULT_PREVIEW);
    picture := NearestSameAspect(pictureSizes, preview.width, DEFAULT_PREVIEW);
  }
}
