/** Moving things of the side-scroller (src/gameplay/gameobject.go): an
    entity's physics step (velocity clamp, then a horizontal and a vertical
    pass, each probing the terrain and, for entities kept on screen, the
    camera), and the player, steered by a controller. The world's tile grid
    and camera, which the Go entity reaches through its back-pointer, are
    parameters here; a bullet the player fires is returned for the world to
    add. Coordinates are reals rather than `float32`. */
module Entities {
  import opened Common
  import opened Graphics
  import opened Input
  import opened Tiles
  import opened Camera

  /** The largest speed along either axis. */
  const MAXVEL: real := 12.0

  /** A velocity component limited to [-12, 12]: anything beyond is cut to
      the bound, anything within is kept. */
  function Clamp(v: real): (r: real)
    ensures -MAXVEL <= r <= MAXVEL
    ensures -MAXVEL <= v <= MAXVEL ==> r == v
    ensures v > MAXVEL ==> r == MAXVEL
    ensures v < -MAXVEL ==> r == -MAXVEL
  {
    if v > 0.0 && v > MAXVEL then MAXVEL
    else if v < 0.0 && v < -MAXVEL then -MAXVEL
    else v
  }

  /** The leading edge probed along one axis: the far side when moving in
      the positive direction, the near side otherwise. */
  function Probe(pos: real, v: real, size: real): real
  {
    if v > 0.0 then pos + v + size else pos + v
  }

  /** Whether a move is blocked: either probe point is in solid terrain,
      or, for an entity kept on screen, either is off screen. */
  predicate Blocked(g: seq<seq<Tile>>, v: View, stay: bool, x1: real, y1: real, x2: real, y2: real)
    requires GridShape(g)
  {
    SolidAt(g, x1, y1) || SolidAt(g, x2, y2) ||
    (stay && (!InView(v, x1, y1) || !InView(v, x2, y2)))
  }

  /** Position and velocity, the part of an entity its step changes. */
  datatype Motion = Motion(x: real, y: real, vx: real, vy: real)

  /** The horizontal pass of a `width` x `height` entity: unless the
      leading edge, probed at the top and bottom rows, is blocked, move by
      the horizontal speed; if it is blocked, stop horizontally. */
  function HorizontalPass(g: seq<seq<Tile>>, v: View, m: Motion, width: real, height: real, stay: bool): Motion
    requires GridShape(g)
  {
    var px := Probe(m.x, m.vx, width);
    if Blocked(g, v, stay, px, m.y, px, m.y + height) then m.(vx := 0.0) else m.(x := m.x + m.vx)
  }

  /** The vertical pass: the same, probing at the left and right columns. */
  function VerticalPass(g: seq<seq<Tile>>, v: View, m: Motion, width: real, height: real, stay: bool): Motion
    requires GridShape(g)
  {
    var py := Probe(m.y, m.vy, height);
    if Blocked(g, v, stay, m.x, py, m.x + width, py) then m.(vy := 0.0) else m.(y := m.y + m.vy)
  }

  /** The physics step: clamp both components, then the horizontal pass,
      then the vertical pass from the position the first one reached. */
  function Step(g: seq<seq<Tile>>, v: View, m: Motion, width: real, height: real, stay: bool): Motion
    requires GridShape(g)
  {
    var clamped := m.(vx := Clamp(m.vx), vy := Clamp(m.vy));
    VerticalPass(g, v, HorizontalPass(g, v, clamped, width, height, stay), width, height, stay)
  }

  /** After a step both velocity components lie in [-12, 12], and each
      axis either moved by exactly its clamped velocity or stood still with
      its velocity zeroed. */
  lemma StepBounds(g: seq<seq<Tile>>, v: View, m: Motion, width: real, height: real, stay: bool)
    requires GridShape(g)
    ensures var r := Step(g, v, m, width, height, stay);
      -MAXVEL <= r.vx <= MAXVEL && -MAXVEL <= r.vy <= MAXVEL &&
      ((r.x == m.x + Clamp(m.vx) && r.vx == Clamp(m.vx)) || (r.x == m.x && r.vx == 0.0)) &&
      ((r.y == m.y + Clamp(m.vy) && r.vy == Clamp(m.vy)) || (r.y == m.y && r.vy == 0.0))
  {
  }

  /** An entity only moves into free space: it moves horizontally only if
      the leading edge it lands on (`Probe` of the clamped speed) is clear
      of terrain at the top and bottom rows, and on screen for an entity
      kept there; it moves vertically only if the leading edge it lands on
      is clear at the left and right columns of the column it stands in
      after the horizontal pass. */
  lemma StepMovesIntoFreeSpace(g: seq<seq<Tile>>, v: View, m: Motion, width: real, height: real, stay: bool)
    requires GridShape(g)
    ensures var r := Step(g, v, m, width, height, stay);
      var ex := Probe(m.x, Clamp(m.vx), width);
      var ey := Probe(m.y, Clamp(m.vy), height);
      (r.x != m.x ==> !Blocked(g, v, stay, ex, m.y, ex, m.y + height)) &&
      (r.y != m.y ==> !Blocked(g, v, stay, r.x, ey, r.x + width, ey))
  {
    var c := m.(vx := Clamp(m.vx), vy := Clamp(m.vy));
    var h := HorizontalPass(g, v, c, width, height, stay);
    assert Step(g, v, m, width, height, stay) == VerticalPass(g, v, h, width, height, stay);
  }

  /** Being blocked on one axis never stops the other: with the horizontal
      pass blocked, the vertical pass is the one the entity would take from
      where it stands with no horizontal speed. */
  lemma {:induction false} AxesIndependent(g: seq<seq<Tile>>, v: View, m: Motion, width: real, height: real, stay: bool)
    requires GridShape(g)
    requires var vx := Clamp(m.vx);
      var px := Probe(m.x, vx, width);
      Blocked(g, v, stay, px, m.y, px, m.y + height)
    ensures var r := Step(g, v, m, width, height, stay);
      var s := Step(g, v, m.(vx := 0.0), width, height, stay);
      r.y == s.y && r.vy == s.vy && r.x == m.x
  {
  }

  class Entity {
    const id: nat
    var x: real
    var y: real
    const width: real
    const height: real
    var im: Option<Image>
    var vx: real
    var vy: real
    const stayWithinCamera: bool
    var health: real
    /** Maintained by the world on every update. */
    var collidingEntities: seq<Entity>
    /** Damage dealt on contact; usually 0. */
    var damage: real
    var shouldRemove: bool
    var gravityMultiplier: real
    var facingDir: Vec2

    /** An entity with the given box, image and camera behaviour; every
        other field starts at Go's zero value. */
    constructor (id: nat, x: real, y: real, width: real, height: real, im: Option<Image>, stayWithinCamera: bool)
      ensures this.id == id && this.x == x && this.y == y && this.width == width && this.height == height
      ensures this.im == im && this.stayWithinCamera == stayWithinCamera
      ensures vx == 0.0 && vy == 0.0 && health == 0.0 && collidingEntities == [] && damage == 0.0
      ensures !shouldRemove && gravityMultiplier == 0.0 && facingDir == Vec2(0.0, 0.0)
    {
      this.id := id;
      this.x := x;
      this.y := y;
      this.width := width;
      this.height := height;
      this.im := im;
      this.stayWithinCamera := stayWithinCamera;
      vx, vy, health, collidingEntities, damage := 0.0, 0.0, 0.0, [], 0.0;
      shouldRemove, gravityMultiplier, facingDir := false, 0.0, Vec2(0.0, 0.0);
    }

    function GetMotion(): Motion
      reads this`x, this`y, this`vx, this`vy
    {
      Motion(x, y, vx, vy)
    }

    function GetBox(): Box
      reads this`x, this`y
    {
      Box(x, y, width, height)
    }

    /** One physics step against the world's tiles and camera: clamp, then
        the horizontal pass, then the vertical pass. */
    method Update(tiles: array2<Tile>, cam: Camera)
      requires IsGrid(tiles)
      modifies this`x, this`y, this`vx, this`vy
      ensures GetMotion() == Step(Cells(tiles), cam.GetView(), old(GetMotion()), width, height, stayWithinCamera)
    {
      LimitVelocity();
      MoveHorizontally(tiles, cam);
      MoveVertically(tiles, cam);
    }

    /** Both velocity components are cut to [-12, 12]. */
    method LimitVelocity()
      modifies this`vx, this`vy
      ensures vx == Clamp(old(vx)) && vy == Clamp(old(vy))
    {
      if vx > 0.0 && vx > MAXVEL {
        vx := MAXVEL;
      } else if vx < 0.0 && vx < -MAXVEL {
        vx := -MAXVEL;
      }
      if vy > 0.0 && vy > MAXVEL {
        vy := MAXVEL;
      } else if vy < 0.0 && vy < -MAXVEL {
        vy := -MAXVEL;
      }
    }

    /** The horizontal pass: probe the leading edge at the top and bottom
        rows; stop if blocked, move otherwise. */
    method MoveHorizontally(tiles: array2<Tile>, cam: Camera)
      requires IsGrid(tiles)
      modifies this`x, this`vx
      ensures GetMotion() == HorizontalPass(Cells(tiles), cam.GetView(), old(GetMotion()), width, height, stayWithinCamera)
    {
      var expectedX := x + vx;
      if vx > 0.0 {
        expectedX := expectedX + width;
      }
      CollisionInCells(tiles, expectedX, y);
      CollisionInCells(tiles, expectedX, y + height);
      var collisionX := IsWorldCollision(tiles, expectedX, y) || IsWorldCollision(tiles, expectedX, y + height);
      if stayWithinCamera {
        collisionX := collisionX || !cam.IsInsideCamera(expectedX, y) || !cam.IsInsideCamera(expectedX, y + height);
      }
      if collisionX {
        vx := 0.0;
      } else {
        x := x + vx;
      }
    }

    /** The vertical pass: probe the leading edge at the left and right
        columns of the current position; stop if blocked, move otherwise. */
    method MoveVertically(tiles: array2<Tile>, cam: Camera)
      requires IsGrid(tiles)
      modifies this`y, this`vy
      ensures GetMotion() == VerticalPass(Cells(tiles), cam.GetView(), old(GetMotion()), width, height, stayWithinCamera)
    {
      var expectedY := y + vy;
      if vy > 0.0 {
        expectedY := expectedY + height;
      }
      CollisionInCells(tiles, x, expectedY);
      CollisionInCells(tiles, x + width, expectedY);
      var collisionY := IsWorldCollision(tiles, x, expectedY) || IsWorldCollision(tiles, x + width, expectedY);
      if stayWithinCamera {
        collisionY := collisionY || !cam.IsInsideCamera(x, expectedY) || !cam.IsInsideCamera(x + width, expectedY);
      }
      if collisionY {
        vy := 0.0;
      } else {
        y := y + vy;
      }
    }

    /** Adds to the velocity, component by component. */
    method AddVel(dx: real, dy: real)
      modifies this`vx, this`vy
      ensures vx == old(vx) + dx && vy == old(vy) + dy
    {
      vx := vx + dx;
      vy := vy + dy;
    }
  }

  /** The bullet's sprite: the loader's image number 1. */
  const BulletSprite: SpriteID := 1

  /** An entity steered by a controller. */
  class Player {
    const entity: Entity
    const pi: PlayerInput

    /** A player starts at rest, kept on screen. */
    constructor NewPlayer(id: nat, x: real, y: real, width: real, height: real, im: Option<Image>, pi: PlayerInput)
      ensures fresh(entity) && this.pi == pi
      ensures entity.id == id && entity.x == x && entity.y == y
      ensures entity.width == width && entity.height == height && entity.im == im
      ensures entity.vx == 0.0 && entity.vy == 0.0 && entity.stayWithinCamera
      ensures !entity.shouldRemove && entity.collidingEntities == []
    {
      entity := new Entity(id, x, y, width, height, im, true);
      this.pi := pi;
    }

    /** Whether there is ground two units below either bottom corner. */
    predicate OnGround(tiles: array2<Tile>)
      requires IsGrid(tiles)
      reads entity`x, entity`y, tiles
    {
      IsWorldCollision(tiles, entity.x, entity.y + entity.height + 2.0) ||
      IsWorldCollision(tiles, entity.x + entity.width, entity.y + entity.height + 2.0)
    }

    /** Reads the controller: the left trigger stops the player, otherwise
        the horizontal speed is five times the stick's second axis; B jumps
        (8.5 upward), but only from the ground; A fires one bullet, a 10 x 10
        entity at the player's position dealing 10 damage, with fifty times
        the stick's axes (second axis horizontally) as its velocity. */
    method Update(tiles: array2<Tile>) returns (bullet: Entity?)
      requires IsGrid(tiles)
      modifies entity`vx, entity`vy
      ensures entity.vx == old(if pi.IsButtonPressed(JoyConTriggerLeft) then 0.0 else 5.0 * pi.GetAxes().1)
      ensures entity.vy == old(entity.vy - (if pi.IsButtonPressed(JoyConB) && OnGround(tiles) then 8.5 else 0.0))
      ensures bullet != null <==> old(pi.IsButtonPressed(JoyConA))
      ensures bullet != null ==>
        fresh(bullet) && bullet.x == entity.x && bullet.y == entity.y &&
        bullet.width == 10.0 && bullet.height == 10.0 && bullet.damage == 10.0 &&
        bullet.vx == old(pi.GetAxes().1) * 50.0 && bullet.vy == old(pi.GetAxes().0) * 50.0 &&
        bullet.im == Some(GetSpriteImage(BulletSprite)) && !bullet.stayWithinCamera &&
        !bullet.shouldRemove && bullet.collidingEntities == [] && bullet.gravityMultiplier == 0.0
    {
      // The controller and the ground are read before anything is written;
      // none of the writes below can change what they report.
      var axes := pi.GetAxes();
      var stop := pi.IsButtonPressed(JoyConTriggerLeft);
      var jump := pi.IsButtonPressed(JoyConB) && OnGround(tiles);
      var fire := pi.IsButtonPressed(JoyConA);
      if !stop {
        var xAxis := axes.1;
        var magn := 5.0;
        entity.vx := magn * xAxis;
      } else {
        entity.vx := 0.0;
      }
      if jump {
        entity.vy := entity.vy - 8.5;
      }
      bullet := null;
      if fire {
        var yAx, xAx := axes.0, axes.1;
        bullet := new Entity(0, entity.x, entity.y, 10.0, 10.0, Some(GetSpriteImage(BulletSprite)), false);
        bullet.vx := xAx * 50.0;
        bullet.vy := yAx * 50.0;
        bullet.damage := 10.0;
      }
    }
  }

  /** What a player's fire button decides: whether A is held, where the
      player stands and the stick's axes. */
  datatype Aim = Aim(fires: bool, x: real, y: real, axes: (real, real))

  /** A player's aim, read from its position and controller. */
  function AimOf(pl: Player): Aim
    reads pl.entity`x, pl.entity`y, pl.pi
  {
    Aim(pl.pi.IsButtonPressed(JoyConA), pl.entity.x, pl.entity.y, pl.pi.GetAxes())
  }

  /** `b` is the bullet fired with aim `a`: a 10 x 10 entity where the
      player stands, dealing 10 damage, with fifty times the stick's axes
      (second axis horizontally) as its velocity, free of the camera and of
      gravity. */
  ghost predicate ShotBy(b: Entity, a: Aim)
    reads b
  {
    b.x == a.x && b.y == a.y &&
    b.width == 10.0 && b.height == 10.0 && b.damage == 10.0 &&
    b.vx == a.axes.1 * 50.0 && b.vy == a.axes.0 * 50.0 &&
    b.im == Some(GetSpriteImage(BulletSprite)) && !b.stayWithinCamera &&
    !b.shouldRemove && b.collidingEntities == [] && b.gravityMultiplier == 0.0
  }
}
