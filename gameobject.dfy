/** The earlier, simpler object model (src/gameobject/gameobject.go): an
    entity drifts by its velocity each update, and a player's velocity is
    set from the stick first. Drawing is not part of this model;
    coordinates are reals rather than `float32`. */
module GameObject {
  import opened Input
  import opened Graphics

  /** Anything drawn at a position that moves by its own velocity. */
  class Entity {
    const id: nat
    const im: Image
    var x: real
    var y: real
    var vx: real
    var vy: real

    constructor (id: nat, x: real, y: real, im: Image)
      ensures this.id == id && this.im == im && this.x == x && this.y == y
      ensures vx == 0.0 && vy == 0.0
    {
      this.id := id;
      this.im := im;
      this.x := x;
      this.y := y;
      vx := 0.0;
      vy := 0.0;
    }

    /** One step along the current velocity, which stays as it is. */
    method Update()
      modifies this
      ensures x == old(x) + vx && y == old(y) + vy
      ensures vx == old(vx) && vy == old(vy)
    {
      x := x + vx;
      y := y + vy;
    }
  }

  /** An entity steered by a controller. */
  class Player {
    const entity: Entity
    const pi: PlayerInput

    /** A player starts where it is placed, at rest. */
    constructor NewPlayer(id: nat, x: real, y: real, im: Image, pi: PlayerInput)
      ensures entity.id == id && entity.im == im && entity.x == x && entity.y == y
      ensures entity.vx == 0.0 && entity.vy == 0.0
      ensures this.pi == pi && fresh(entity)
    {
      entity := new Entity(id, x, y, im);
      this.pi := pi;
    }

    /** The stick sets the velocity to five times its axes, the second axis
        horizontally and the first vertically, and the entity then moves
        once by that velocity. */
    method Update()
      modifies entity
      ensures entity.vx == 5.0 * pi.GetAxes().1 && entity.vy == 5.0 * pi.GetAxes().0
      ensures entity.x == old(entity.x) + entity.vx && entity.y == old(entity.y) + entity.vy
    {
      var axes := pi.GetAxes();
      var yAxis, xAxis := axes.0, axes.1;
      var magn := 5.0;
      entity.vx := magn * xAxis;
      entity.vy := magn * yAxis;
      entity.Update();
    }
  }
}
