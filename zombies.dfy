/** The zombies (src/gameplay/zombies.go): each zombie's AI picks the
    nearest player it can hear and keeps that target for good, walks
    toward it, and once close enough hits it for 25 at most once per
    cooldown. The random rolls and the clock are parameters; so is the
    world's player list, which the Go AI reaches through back-pointers.
    The walk and idle animations are not part of this model. */
module Zombies {
  import opened Common
  import opened Graphics
  import opened Tiles
  import opened Entities

  /** How close a zombie must be to hit: half a tile. */
  const AttackDistance: real := TILEWIDTH / 2.0
  const AttackCooldown: int := 1000
  const AttackDamage: real := 25.0
  const ZombieHealth: real := 100.0

  /** A zombie's walking speed from a random roll: 1.5 plus up to 99/75. */
  function Speed(roll: nat): (s: real)
    ensures 1.5 <= s <= 1.5 + 99.0 / 75.0
  {
    1.5 + (roll % 100) as real / 75.0
  }

  /** A zombie's hearing range from a random roll: ten tiles plus fewer
      than eight more units of a tile each. */
  function HearingDistance(roll: nat): (h: real)
    ensures 320.0 <= h <= 575.0
  {
    10.0 * TILEWIDTH + (roll % (8 * 32)) as real
  }

  function Abs(v: real): real
  {
    if v < 0.0 then -v else v
  }

  /** Manhattan distance between a player and a zombie at (zx, zy). */
  function Dist(p: Player, zx: real, zy: real): real
    reads p, p.entity
  {
    Abs(p.entity.x - zx) + Abs(p.entity.y - zy)
  }

  /** Whether a zombie at (zx, zy) with hearing `h` can hear `p`. */
  predicate Hears(p: Player, zx: real, zy: real, h: real)
    reads p, p.entity
  {
    Dist(p, zx, zy) <= h
  }

  /** The horizontal speed of a zombie `dx` to the right of its target:
      walk toward it until within attack distance, then stand. */
  function ChaseVx(dx: real, attackDistance: real, speed: real): real
  {
    if dx < -attackDistance then speed
    else if dx > attackDistance then -speed
    else 0.0
  }

  /** A zombie never walks away from its target, and stands exactly when
      within attack distance of it. */
  lemma ChaseApproaches(dx: real, attackDistance: real, speed: real)
    requires speed > 0.0 && attackDistance >= 0.0
    ensures ChaseVx(dx, attackDistance, speed) * dx <= 0.0
    ensures ChaseVx(dx, attackDistance, speed) == 0.0 <==> -attackDistance <= dx <= attackDistance
  {
  }

  /** One attack attempt at clock reading `now`: the first attempt only
      starts the cooldown; afterwards a hit lands once the cooldown has
      passed, restarting it. Returns whether it hit and the new time of
      the last attack. */
  function AttackStep(lastAttack: int, now: int, cooldown: int): (r: (bool, int))
  {
    var last := if lastAttack == 0 then now else lastAttack;
    if now > last + cooldown then (true, now) else (false, last)
  }

  /** The first contact never hits; it starts the cooldown. */
  lemma FirstContactPrimes(now: int, cooldown: int)
    requires cooldown >= 0
    ensures AttackStep(0, now, cooldown) == (false, now)
  {
  }

  /** A hit lands exactly when the cooldown has run out since the last
      attack; it then restarts the cooldown. */
  lemma HitAfterCooldown(lastAttack: int, now: int, cooldown: int)
    requires lastAttack != 0
    ensures AttackStep(lastAttack, now, cooldown).0 <==> now > lastAttack + cooldown
    ensures AttackStep(lastAttack, now, cooldown).0 ==> AttackStep(lastAttack, now, cooldown).1 == now
  {
  }

  /** At most one hit per cooldown window: after a hit, no attempt within
      the cooldown hits again. */
  lemma {:induction false} OneHitPerCooldown(lastAttack: int, now1: int, now2: int, cooldown: int)
    requires cooldown >= 0 && now2 <= now1 + cooldown
    requires AttackStep(lastAttack, now1, cooldown).0
    ensures !AttackStep(AttackStep(lastAttack, now1, cooldown).1, now2, cooldown).0
  {
    var r1 := AttackStep(lastAttack, now1, cooldown);
    assert r1.1 == now1;
  }

  /** The zombie AI: its zombie, its target (none yet, then fixed), its
      rolled speed and hearing, and its attack timing. */
  class BaseZombieAI {
    const z: Entity
    var p: Player?
    var speed: real
    var hearingDistance: real
    var attackDistance: real
    var attackCooldown: int
    var lastAttack: int

    /** `Init`: binds the AI to its zombie and rolls speed and hearing. */
    constructor Init(z: Entity, speedRoll: nat, hearingRoll: nat)
      ensures this.z == z && p == null
      ensures speed == Speed(speedRoll) && hearingDistance == HearingDistance(hearingRoll)
      ensures attackDistance == AttackDistance && attackCooldown == AttackCooldown && lastAttack == 0
    {
      this.z := z;
      p := null;
      attackDistance := TILEWIDTH / 2.0;
      attackCooldown := 1000;
      speed := 1.5 + (speedRoll % 100) as real / 75.0;
      hearingDistance := 10.0 * TILEWIDTH + (hearingRoll % (8 * 32)) as real;
      lastAttack := 0;
    }

    /** The player the zombie hears best: the first of the nearest players
        within hearing, or -1 when it hears none. */
    method FindNearest(players: seq<Player>) returns (idx: int)
      ensures -1 <= idx < |players|
      ensures idx == -1 <==> forall i :: 0 <= i < |players| ==> !Hears(players[i], z.x, z.y, hearingDistance)
      ensures idx >= 0 ==> Hears(players[idx], z.x, z.y, hearingDistance)
      ensures idx >= 0 ==> forall i :: 0 <= i < |players| && Hears(players[i], z.x, z.y, hearingDistance) ==>
                Dist(players[idx], z.x, z.y) <= Dist(players[i], z.x, z.y)
      ensures idx >= 0 ==> forall i :: 0 <= i < idx && Hears(players[i], z.x, z.y, hearingDistance) ==>
                Dist(players[idx], z.x, z.y) < Dist(players[i], z.x, z.y)
    {
      idx := -1;
      var nearestDist := -1.0;
      var i := 0;
      while i < |players|
        invariant 0 <= i <= |players|
        invariant -1 <= idx < i
        invariant idx == -1 <==> forall k :: 0 <= k < i ==> !Hears(players[k], z.x, z.y, hearingDistance)
        invariant idx >= 0 ==> Hears(players[idx], z.x, z.y, hearingDistance) && nearestDist == Dist(players[idx], z.x, z.y)
        invariant idx >= 0 ==> forall k :: 0 <= k < i && Hears(players[k], z.x, z.y, hearingDistance) ==>
                    nearestDist <= Dist(players[k], z.x, z.y)
        invariant idx >= 0 ==> forall k :: 0 <= k < idx && Hears(players[k], z.x, z.y, hearingDistance) ==>
                    nearestDist < Dist(players[k], z.x, z.y)
      {
        var player := players[i];
        var dist := Abs(player.entity.x - z.x) + Abs(player.entity.y - z.y);
        if dist > hearingDistance {
          i := i + 1;
          continue;
        }
        if idx == -1 || dist < nearestDist {
          nearestDist := dist;
          idx := i;
        }
        i := i + 1;
      }
    }

    /** One AI step at clock reading `now` against the world's players.
        Without a target, acquire the nearest audible player, if any; with
        none, nothing happens. Then walk toward the target, and when
        within attack distance horizontally and less than half a tile
        vertically, attempt an attack. */
    method Update(players: seq<Player>, now: int)
      modifies this`p, this`lastAttack, z`vx
      modifies (set pl | pl in players :: pl.entity)`health
      modifies (if p != null then {p.entity} else {})`health
      ensures old(p) != null ==> p == old(p)
      ensures old(p) == null && p == null ==>
        forall i :: 0 <= i < |players| ==> !old(Hears(players[i], z.x, z.y, hearingDistance))
      ensures old(p) == null && p != null ==>
        exists i :: 0 <= i < |players| && p == players[i] && old(Hears(players[i], z.x, z.y, hearingDistance)) &&
          forall k :: 0 <= k < |players| && old(Hears(players[k], z.x, z.y, hearingDistance)) ==>
            old(Dist(players[i], z.x, z.y) <= Dist(players[k], z.x, z.y))
      ensures p == null ==> z.vx == old(z.vx) && lastAttack == old(lastAttack)
      ensures p != null ==>
        var target := p.entity;
        var dx := old(z.x - target.x);
        var dy := old(Abs(z.y - target.y));
        z.vx == ChaseVx(dx, attackDistance, speed) &&
        if -attackDistance <= dx <= attackDistance && dy < TILEWIDTH / 2.0 then
          var r := AttackStep(old(lastAttack), now, attackCooldown);
          lastAttack == r.1 &&
          target.health == old(target.health) - (if r.0 then AttackDamage else 0.0)
        else
          lastAttack == old(lastAttack) && target.health == old(target.health)
      ensures forall pl :: pl in players && (p == null || pl.entity != p.entity) ==>
        pl.entity.health == old(pl.entity.health)
    {
      if p == null {
        var idx := FindNearest(players);
        if idx >= 0 {
          p := players[idx];
        }
      }
      if p == null {
        return;
      }
      var dx := z.x - p.entity.x;
      var dy := Abs(z.y - p.entity.y);
      if dx < -attackDistance {
        z.vx := speed;
      } else if dx > attackDistance {
        z.vx := -speed;
      } else {
        z.vx := 0.0;
        if dy < TILEWIDTH / 2.0 {
          var timeNow := now;
          if lastAttack == 0 {
            lastAttack := timeNow;
          }
          if timeNow > lastAttack + attackCooldown {
            p.entity.health := p.entity.health - 25.0;
            lastAttack := timeNow;
          }
        }
      }
    }
  }

  /** A zombie: an entity driven by its AI. */
  class Zombie {
    const entity: Entity
    const zai: BaseZombieAI

    /** A 31 x 31 zombie at (x, y) with 100 health, facing right, subject
        to gravity, drawn with the bullet sprite; its AI is bound to it with
        the given rolls. */
    constructor NewZombie(x: real, y: real, speedRoll: nat, hearingRoll: nat)
      ensures fresh(entity) && fresh(zai) && zai.z == entity && zai.p == null
      ensures entity.health == ZombieHealth
      ensures entity.id == 10 && entity.x == x && entity.y == y
      ensures entity.width == TILEWIDTH - 1.0 && entity.height == TILEWIDTH - 1.0
      ensures entity.im == Some(GetSpriteImage(Graphics.Bullet)) && !entity.stayWithinCamera
      ensures entity.gravityMultiplier == 1.0 && entity.facingDir == Vec2(1.0, 0.0)
      ensures entity.vx == 0.0 && entity.vy == 0.0 && !entity.shouldRemove && entity.collidingEntities == []
      ensures zai.speed == Speed(speedRoll) && zai.hearingDistance == HearingDistance(hearingRoll)
      ensures zai.attackDistance == AttackDistance && zai.attackCooldown == AttackCooldown && zai.lastAttack == 0
    {
      var e := new Entity(10, x, y, TILEWIDTH - 1.0, TILEWIDTH - 1.0, Some(GetSpriteImage(Graphics.Bullet)), false);
      zai := new BaseZombieAI.Init(e, speedRoll, hearingRoll);
      e.health := 100.0;
      e.facingDir := Vec2(1.0, e.facingDir.Y);
      e.gravityMultiplier := 1.0;
      entity := e;
    }

    /** A zombie's update is its AI's. */
    method Update(players: seq<Player>, now: int)
      modifies zai`p, zai`lastAttack, entity`vx
      modifies (set pl | pl in players :: pl.entity)`health
      modifies (if zai.p != null then {zai.p.entity} else {})`health
      requires zai.z == entity
      ensures old(zai.p) != null ==> zai.p == old(zai.p)
      ensures zai.p == null || zai.p == old(zai.p) || zai.p in players
    {
      zai.Update(players, now);
    }
  }
}
