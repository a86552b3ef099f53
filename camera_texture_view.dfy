/**
 * The outline provider of CameraTextureView.kt: with circular preview on, the
 * view is clipped to a circle centred in the view whose radius is half the
 * smaller extent of the face region, and the centre and radius are written
 * back to the CommonUtils globals.
 */
module CameraTextureView {

  import opened Wrappers
  import opened CommonUtils

  /** The bounds handed to `Outline.setOval(left, top, right, bottom)`. */
  datatype Rect = Rect(left: Int32, top: Int32, right: Int32, bottom: Int32)

  /** What getOutline computes when circular preview is on. */
  datatype Circle = Circle(roundX: Int32, roundY: Int32, radius: Int32, oval: Rect)

  function Min(a: int, b: int): int { if a <= b then a else b }

  /**
   * The horizontal extent `right - left` and the vertical extent `bottom - top`
   * of the face region are compared; the smaller is halved, the horizontal one
   * on a tie. The source reads a `faceCameraViewDownOffset` that CommonUtils.kt
   * does not declare; it is taken to be `faceCameraViewBottomOffset`.
   */
  function Radius(left: Int32, right: Int32, top: Int32, bottom: Int32): Int32
  {
    var horizontal := Sub32(right, left);
    var vertical := Sub32(bottom, top);
    if horizontal > vertical then Half(vertical) else Half(horizontal)
  }

  /** The circle for a view of `width` x `height` and the global face-region offsets. */
  function CircleFor(width: Int32, height: Int32, c: Config): Circle
  {
    var roundX := Half(width);
    var roundY := Half(height);
    var radius := Radius(c.faceCameraViewLeftOffset, c.faceCameraViewRightOffset,
                         c.faceCameraViewTopOffset, c.faceCameraViewBottomOffset);
    Circle(roundX, roundY, radius,
           Rect(Sub32(roundX, radius), Sub32(roundY, radius),
                Add32(roundX, radius), Add32(roundY, radius)))
  }

  /** The radius is half (rounded toward zero) of the smaller extent; on a tie, of the horizontal one. */
  lemma RadiusIsHalfSmallerExtent(left: Int32, right: Int32, top: Int32, bottom: Int32)
    ensures var horizontal := Sub32(right, left);
      var vertical := Sub32(bottom, top);
      var r := Radius(left, right, top, bottom);
      r == Half(Min(horizontal, vertical)) &&
      (horizontal == vertical ==> r == Half(horizontal)) &&
      (Min(horizontal, vertical) >= 0 ==> 0 <= Min(horizontal, vertical) - 2 * r <= 1)
  {
  }

  /**
   * The centre is the middle of the view (integer halves), and the oval is a
   * square of side twice the radius centred on it, for every `Int` input: a
   * wrapped extent changes the radius, but the halves keep the centre and the
   * radius small enough that the oval bounds never wrap.
   */
  lemma OvalIsCentredSquare(width: Int32, height: Int32, c: Config)
    ensures var circle := CircleFor(width, height, c);
      var oval := circle.oval;
      (width >= 0 ==> 0 <= width - 2 * circle.roundX <= 1) &&
      (height >= 0 ==> 0 <= height - 2 * circle.roundY <= 1) &&
      oval.right - oval.left == 2 * circle.radius &&
      oval.bottom - oval.top == 2 * circle.radius &&
      oval.left + circle.radius == circle.roundX &&
      oval.top + circle.radius == circle.roundY
  {
  }

  /** Android's `Outline`, reduced to the oval last set on it. */
  class Outline {
    var oval: Option<Rect>

    constructor ()
      ensures oval == None
    {
      oval := None;
    }
  }

  /** The `CameraTextureView`: its laid-out size and its clipping flag. */
  class CameraTextureView {
    var width: Int32
    var height: Int32
    var clipToOutline: bool
    const globals: Globals

    constructor (globals: Globals, width: Int32, height: Int32)
      ensures this.globals == globals && this.width == width && this.height == height
      ensures !clipToOutline
    {
      this.globals := globals;
      this.width, this.height := width, height;
      clipToOutline := false;
    }

    /**
     * `ViewOutlineProvider.getOutline`: when circular preview is off, nothing
     * changes; when on, the centre and radius globals, the outline's oval and
     * the clipping flag are set, and nothing else.
     */
    method GetOutline(outline: Outline)
      modifies globals`roundX, globals`roundY, globals`radius, this`clipToOutline, outline
      ensures !old(globals.enableCirclePreview) ==>
        globals.Snapshot() == old(globals.Snapshot()) &&
        clipToOutline == old(clipToOutline) && outline.oval == old(outline.oval)
      ensures old(globals.enableCirclePreview) ==>
        var circle := CircleFor(width, height, old(globals.Snapshot()));
        globals.Snapshot() == old(globals.Snapshot()).(roundX := circle.roundX, roundY := circle.roundY, radius := circle.radius) &&
        clipToOutline && outline.oval == Some(circle.oval)
    {
      if globals.enableCirclePreview {
        globals.roundX := Half(width);
        globals.roundY := Half(height);
        globals.radius := Radius(globals.faceCameraViewLeftOffset, globals.faceCameraViewRightOffset,
                                 globals.faceCameraViewTopOffset, globals.faceCameraViewBottomOffset);
        outline.oval := Some(Rect(
          Sub32(globals.roundX, globals.radius),
          Sub32(globals.roundY, globals.radius),
          Add32(globals.roundX, globals.radius),
          Add32(globals.roundY, globals.radius)));
        clipToOutline := true;
      }
    }
  }
}
