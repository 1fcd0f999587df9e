/** Sprite handles and the frame counter of an animation
    (src/graphics/animation.go). Decoding the sprite sheet and drawing are
    not part of this model: an image is known only by the sprite it was
    looked up from, and the clock is a parameter. */
module Graphics {

  /** The sprite enumeration (its order fixes the numbers). */
  type SpriteID = nat

  const DirtTile: SpriteID := 0
  const GrassTile: SpriteID := 1
  const RockTile: SpriteID := 2
  const Bullet: SpriteID := 7

  /** An opaque image handle, as returned by the loader for a sprite. */
  datatype Image = Image(sprite: SpriteID)

  /** The loader's lookup: one handle per sprite. */
  function GetSpriteImage(id: SpriteID): Image
  {
    Image(id)
  }

  const DEFAULTFRAMEDELAY: int := 100

  /** The frame after `cur`, wrapping to the first after the last. */
  function NextFrame(cur: int, n: int): (r: int)
    requires 0 <= cur < n
    ensures 0 <= r < n
    ensures r == cur + 1 || (cur == n - 1 && r == 0)
  {
    (cur + 1) % n
  }

  /** `k` advances in a row. */
  function Advance(cur: int, n: int, k: nat): (r: int)
    requires 0 <= cur < n
    ensures 0 <= r < n
  {
    if k == 0 then cur else NextFrame(Advance(cur, n, k - 1), n)
  }

  /** Within one lap, `k` advances move `k` frames forward, wrapping past
      the last frame. */
  lemma {:induction false} AdvanceWithinLap(cur: int, n: int, k: nat)
    requires 0 <= cur < n && k <= n
    ensures Advance(cur, n, k) == if cur + k < n then cur + k else cur + k - n
  {
    if k > 0 {
      AdvanceWithinLap(cur, n, k - 1);
    }
  }

  /** After as many advances as there are frames the animation is back
      where it started. */
  lemma CycleReturns(cur: int, n: int)
    requires 0 <= cur < n
    ensures Advance(cur, n, n as nat) == cur
  {
    AdvanceWithinLap(cur, n, n as nat);
  }

  class Animation {
    var frames: seq<Image>
    var curFrame: int
    var frameDelayMs: int
    var lastFrameDrawMs: int

    /** The current frame is a valid index whenever there are frames. */
    ghost predicate Valid()
      reads this
    {
      0 <= curFrame && (|frames| > 0 ==> curFrame < |frames|)
    }

    /** One frame per sprite id, in order; the default delay; frame 0. */
    constructor NewAnimation(sprites: seq<SpriteID>)
      ensures Valid()
      ensures |frames| == |sprites|
      ensures forall i :: 0 <= i < |sprites| ==> frames[i] == GetSpriteImage(sprites[i])
      ensures frameDelayMs == DEFAULTFRAMEDELAY && curFrame == 0 && lastFrameDrawMs == 0
    {
      var acc: seq<Image> := [];
      var i := 0;
      while i < |sprites|
        invariant 0 <= i <= |sprites|
        invariant |acc| == i
        invariant forall k :: 0 <= k < i ==> acc[k] == GetSpriteImage(sprites[k])
      {
        acc := acc + [GetSpriteImage(sprites[i])];
        i := i + 1;
      }
      frames := acc;
      curFrame := 0;
      frameDelayMs := DEFAULTFRAMEDELAY;
      lastFrameDrawMs := 0;
    }

    /** The frame-advance part of `Draw`, at clock reading `now`: once the
        delay has passed, move one frame on and restart the delay. */
    method Draw(now: int)
      requires Valid() && |frames| > 0
      modifies this
      ensures Valid()
      ensures frames == old(frames) && frameDelayMs == old(frameDelayMs)
      ensures now > old(lastFrameDrawMs) + old(frameDelayMs) ==>
                curFrame == NextFrame(old(curFrame), |frames|) && lastFrameDrawMs == now
      ensures now <= old(lastFrameDrawMs) + old(frameDelayMs) ==>
                curFrame == old(curFrame) && lastFrameDrawMs == old(lastFrameDrawMs)
    {
      if now > lastFrameDrawMs + frameDelayMs {
        curFrame := (curFrame + 1) % |frames|;
        lastFrameDrawMs := now;
      }
    }
  }
}
