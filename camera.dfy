/** The view onto the world (src/gameplay/camera.go). The camera follows
    the players' centroid, can only scroll right (its x offset only
    decreases), stops scrolling once the level's end is on screen, and
    answers whether a world point is on screen. The world's player list and
    level, which the Go camera reaches through its back-pointer, are
    parameters here. */
module Camera {
  import opened Tiles

  /** What the camera needs of a player: its box in world units. */
  datatype Box = Box(x: real, y: real, width: real, height: real)

  /** The summed box centres of `boxes`, x and y apart. */
  function SumCentreX(boxes: seq<Box>): real
  {
    if |boxes| == 0 then 0.0
    else SumCentreX(boxes[..|boxes| - 1]) + (boxes[|boxes| - 1].x + boxes[|boxes| - 1].width / 2.0)
  }

  function SumCentreY(boxes: seq<Box>): real
  {
    if |boxes| == 0 then 0.0
    else SumCentreY(boxes[..|boxes| - 1]) + (boxes[|boxes| - 1].y + boxes[|boxes| - 1].height / 2.0)
  }

  /** The x offset that puts the players' mean centre in the middle of a
      screen `screenWidth` wide. */
  function NewXOffset(boxes: seq<Box>, screenWidth: real): real
    requires |boxes| > 0
  {
    -SumCentreX(boxes) / |boxes| as real + screenWidth / 2.0
  }

  /** The y offset that puts the players' mean centre two thirds of the way
      down a screen `screenHeight` high. */
  function NewYOffset(boxes: seq<Box>, screenHeight: real): real
    requires |boxes| > 0
  {
    -SumCentreY(boxes) / |boxes| as real + screenHeight * 2.0 / 3.0
  }

  /** What a camera shows: its offsets and the screen's size. */
  datatype View = View(offX: real, offY: real, screenWidth: real, screenHeight: real)

  /** Whether a world point is in view, bounds included. A `y` of -1 asks
      about `x` alone. */
  predicate InView(v: View, x: real, y: real)
  {
    var topLeftX := -v.offX;
    var topLeftY := -v.offY;
    var bottomRightX := -v.offX + v.screenWidth;
    var bottomRightY := -v.offY + v.screenHeight;
    if y == -1.0 then
      !(x < topLeftX || x > bottomRightX)
    else
      !(x < topLeftX || x > bottomRightX || y < topLeftY || y > bottomRightY)
  }

  /** Height of the tile band in world units: below it the camera must not
      look. */
  const BandHeight: real := WORLDBUFFERHEIGHT as real * TILEWIDTH

  /** When every player stands at the same centre, the new x offset centres
      that point on screen. */
  lemma {:induction false} SharedCentreIsCentred(boxes: seq<Box>, cx: real, screenWidth: real)
    requires |boxes| > 0
    requires forall i :: 0 <= i < |boxes| ==> boxes[i].x + boxes[i].width / 2.0 == cx
    ensures -NewXOffset(boxes, screenWidth) + screenWidth / 2.0 == cx
  {
    SumOfSharedCentre(boxes, cx);
  }

  lemma {:induction false} SumOfSharedCentre(boxes: seq<Box>, cx: real)
    requires forall i :: 0 <= i < |boxes| ==> boxes[i].x + boxes[i].width / 2.0 == cx
    ensures SumCentreX(boxes) == |boxes| as real * cx
  {
    if |boxes| > 0 {
      SumOfSharedCentre(boxes[..|boxes| - 1], cx);
    }
  }

  class Camera {
    var offX: real
    var offY: real
    var screenWidth: real
    var screenHeight: real

    /** The camera never looks left of where it started, and the screen has
        a size (zero until the first frame is drawn). */
    ghost predicate Valid()
      reads this
    {
      offX <= 0.0 && screenWidth >= 0.0 && screenHeight >= 0.0
    }

    /** A new camera is at the origin with no screen yet. */
    constructor NewCamera()
      ensures Valid()
      ensures offX == 0.0 && offY == 0.0 && screenWidth == 0.0 && screenHeight == 0.0
    {
      offX, offY, screenWidth, screenHeight := 0.0, 0.0, 0.0, 0.0;
    }

    /** The drawing pass records the screen's size in the camera. */
    method SetScreenSize(width: nat, height: nat)
      requires Valid()
      modifies this`screenWidth, this`screenHeight
      ensures Valid()
      ensures screenWidth == width as real && screenHeight == height as real
    {
      screenWidth := width as real;
      screenHeight := height as real;
    }

    /** One camera step, given the players' boxes and the level's visible
        end and width (in columns). Nothing moves until the screen has a
        size. With no players Go divides by zero, gets NaN, and every
        comparison with it fails, so nothing moves either. Otherwise the x
        offset follows the players only to the right, and only while the
        level's end is off screen; the y offset follows them unless that
        would show what lies below the band. */
    method Update(boxes: seq<Box>, worldXEnd: nat, worldWidth: nat)
      requires Valid()
      modifies this`offX, this`offY
      ensures Valid()
      ensures offX <= old(offX)
      ensures screenHeight == 0.0 || screenWidth == 0.0 || |boxes| == 0 ==>
                offX == old(offX) && offY == old(offY)
      ensures screenHeight != 0.0 && screenWidth != 0.0 && |boxes| > 0 ==>
                var newX := NewXOffset(boxes, screenWidth);
                var newY := NewYOffset(boxes, screenHeight);
                offX == (if newX < old(offX) && worldXEnd < worldWidth then newX else old(offX)) &&
                offY == (if BandHeight > -newY + screenHeight then newY else old(offY))
    {
      if screenHeight == 0.0 || screenWidth == 0.0 {
        return;
      }
      if |boxes| == 0 {
        return;
      }
      var totalX, totalY := 0.0, 0.0;
      var i := 0;
      while i < |boxes|
        invariant 0 <= i <= |boxes|
        invariant totalX == SumCentreX(boxes[..i]) && totalY == SumCentreY(boxes[..i])
      {
        assert boxes[..i + 1][..i] == boxes[..i];
        totalX := totalX + (boxes[i].x + boxes[i].width / 2.0);
        totalY := totalY + (boxes[i].y + boxes[i].height / 2.0);
        i := i + 1;
      }
      assert boxes[..i] == boxes;
      var newXOffset := -totalX / |boxes| as real + screenWidth / 2.0;
      if newXOffset < offX && worldXEnd < worldWidth {
        offX := newXOffset;
      }
      var newYOffset := -totalY / |boxes| as real + screenHeight * 2.0 / 3.0;
      if BandHeight > -newYOffset + screenHeight {
        offY := newYOffset;
      }
    }

    /** The translation applied when drawing; it never shifts the view left
        of the world's origin. */
    function GetRenderOffset(): (r: (real, real))
      requires Valid()
      reads this
      ensures r.0 <= 0.0
      ensures r == (offX, offY)
    {
      (offX, offY)
    }

    /** What the camera shows, as a value. */
    function GetView(): View
      reads this
    {
      View(offX, offY, screenWidth, screenHeight)
    }

    /** Whether a world point is on screen, bounds included. A `y` of -1
        asks about `x` alone. */
    predicate IsInsideCamera(x: real, y: real)
      reads this
    {
      InView(GetView(), x, y)
    }

    /** The on-screen points form a closed rectangle: between two on-screen
        x positions every x is on screen, and with the sentinel only x
        matters. */
    lemma InsideIsClosedInterval(x1: real, x2: real, x: real, y: real)
      requires x1 <= x <= x2
      requires IsInsideCamera(x1, y) && IsInsideCamera(x2, y)
      ensures IsInsideCamera(x, y)
      ensures IsInsideCamera(x, -1.0)
    {
    }

    /** Exactly the columns from `-offX` to `-offX + screenWidth` are on
        screen, bounds included; away from the sentinel the rows from
        `-offY` to `-offY + screenHeight` are too. */
    lemma InsideBounds(x: real, y: real)
      ensures IsInsideCamera(x, -1.0) <==> -offX <= x <= -offX + screenWidth
      ensures y != -1.0 ==>
        (IsInsideCamera(x, y) <==>
          -offX <= x <= -offX + screenWidth && -offY <= y <= -offY + screenHeight)
    {
    }

    /** After a step that moved the camera right, the players' mean centre
        is in the middle of the screen, hence on screen. */
    lemma CentroidOnScreen(boxes: seq<Box>)
      requires Valid() && |boxes| > 0
      requires offX == NewXOffset(boxes, screenWidth)
      ensures IsInsideCamera(SumCentreX(boxes) / |boxes| as real, -1.0)
    {
    }
  }
}
