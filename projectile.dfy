/** A projectile: its initial velocity, boosted by the firer's own velocity
    only where that points the same way, and the per-tick check that removes
    it when its next step would hit a blocked tile or leave the map.

    The trigonometry that turns the angle to the target into velocity
    components is left to the caller: the constructors take the components
    already rounded to whole numbers.
 */
module Projectiles {

  datatype Option<T> = None | Some(value: T)

  /** A visual effect requested from the round: position and lifetime in seconds. */
  datatype Particle = Particle(x: real, y: real, lifetime: real)

  /** Lifetime of the explosion shown where a projectile is removed. */
  const ExplosionLifetime: real := 0.6

  /** The sign of v, as Java's Math.signum: -1, 0 or 1. */
  function Signum(v: real): (s: int)
    ensures s == 0 <==> v == 0.0
    ensures s == 1 <==> v > 0.0
    ensures s == -1 <==> v < 0.0
  {
    if v > 0.0 then 1 else if v < 0.0 then -1 else 0
  }

  function Abs(v: real): real {
    if v < 0.0 then -v else v
  }

  /** A velocity component after the firer's offset: the offset is added
      exactly when it has the same sign as the component. */
  function WithOffset(v: real, offset: real): (r: real)
    ensures Signum(v) == Signum(offset) ==> r == v + offset
    ensures Signum(v) != Signum(offset) ==> r == v
    ensures Abs(r) >= Abs(v)
    ensures v == 0.0 ==> r == 0.0
    ensures r == v || (Signum(r) == Signum(v) && Abs(r) == Abs(v) + Abs(offset))
  {
    v + (if Signum(v) == Signum(offset) then offset else 0.0)
  }

  /** Without an offset the velocity is exactly the rounded component. */
  lemma ZeroOffsetKeepsVelocity(v: real)
    ensures WithOffset(v, 0.0) == v
  {
  }

  /** A moving firer never slows its shot down, and speeds it up exactly when
      it moves the same way along that axis. */
  lemma OffsetOnlySpeedsUp(v: real, offset: real)
    ensures Abs(WithOffset(v, offset)) > Abs(v) <==> v != 0.0 && Signum(v) == Signum(offset)
  {
  }

  /** Whether the box of size w by h at (x, y), moved by (dx, dy), sticks out
      of the map [0, mapWidth] x [0, mapHeight] on any side. A box that stays
      has its moved corner on the map; a box on the map that does not move
      never leaves it. */
  predicate LeavesMap(x: real, y: real, w: real, h: real, dx: real, dy: real,
                      mapWidth: real, mapHeight: real)
    ensures !LeavesMap(x, y, w, h, dx, dy, mapWidth, mapHeight) && w >= 0.0 && h >= 0.0
            ==> 0.0 <= x + dx <= mapWidth && 0.0 <= y + dy <= mapHeight
    ensures dx == 0.0 && dy == 0.0 && 0.0 <= x && x + w <= mapWidth && 0.0 <= y && y + h <= mapHeight
            ==> !LeavesMap(x, y, w, h, dx, dy, mapWidth, mapHeight)
  {
    x + dx < 0.0 || x + w + dx > mapWidth || y + dy < 0.0 || y + h + dy > mapHeight
  }

  class Projectile {
    var x: real
    var y: real
    const width: real
    const height: real
    var velocityX: real
    var velocityY: real
    /** Damage dealt on a hit; fixed when fired. */
    const damage: int
    /** Identity of the entity that fired it; fixed when fired. */
    const owner: nat
    var removed: bool

    /** A projectile fired from (x0, y0) with the rounded velocity components
        (roundedX, roundedY), boosted by the firer's velocity offset. */
    constructor WithVelocityOffset(x0: real, y0: real, w: real, h: real, roundedX: int, roundedY: int,
                                   velocityXOffset: real, velocityYOffset: real, damage: int, owner: nat)
      ensures x == x0 && y == y0 && width == w && height == h
      ensures velocityX == WithOffset(roundedX as real, velocityXOffset)
      ensures velocityY == WithOffset(roundedY as real, velocityYOffset)
      ensures this.damage == damage && this.owner == owner && !removed
    {
      x, y, width, height := x0, y0, w, h;
      var vx, vy := roundedX as real, roundedY as real;
      // Only speed the projectile up when the firer moves the same way.
      vx := vx + (if Signum(vx) == Signum(velocityXOffset) then velocityXOffset else 0.0);
      vy := vy + (if Signum(vy) == Signum(velocityYOffset) then velocityYOffset else 0.0);
      velocityX, velocityY := vx, vy;
      this.damage := damage;
      this.owner := owner;
      removed := false;
    }

    /** A projectile fired without a velocity offset: offsets 0 and 0, so its
        velocity is the rounded components unchanged. */
    constructor (x0: real, y0: real, w: real, h: real, roundedX: int, roundedY: int, damage: int, owner: nat)
      ensures x == x0 && y == y0 && width == w && height == h
      ensures velocityX == roundedX as real && velocityY == roundedY as real
      ensures this.damage == damage && this.owner == owner && !removed
    {
      x, y, width, height := x0, y0, w, h;
      velocityX := WithOffset(roundedX as real, 0.0);
      velocityY := WithOffset(roundedY as real, 0.0);
      this.damage := damage;
      this.owner := owner;
      removed := false;
    }

    /** One tick. The physics step runs first and leaves the body at
        (integratedX, integratedY); then the step the projectile would take
        next, (velocityX * delta, velocityY * delta), is checked against the
        blocked-tile tests `collidesX`/`collidesY` and the map bounds. On a
        hit the projectile is marked removed and one explosion is requested at
        its current position; otherwise nothing changes. */
    method Update(delta: real, integratedX: real, integratedY: real,
                  mapWidth: real, mapHeight: real,
                  collidesX: real -> bool, collidesY: real -> bool)
      returns (explosion: Option<Particle>)
      modifies this`x, this`y, this`removed
      ensures x == integratedX && y == integratedY
      ensures var hit := collidesX(velocityX * delta) || collidesY(velocityY * delta)
                         || LeavesMap(x, y, width, height, velocityX * delta, velocityY * delta, mapWidth, mapHeight);
              && removed == (old(removed) || hit)
              && explosion == (if hit then Some(Particle(x, y, ExplosionLifetime)) else None)
      ensures x + width + velocityX * delta > mapWidth ==> removed && explosion.Some?
    {
      x, y := integratedX, integratedY;

      var deltaX := velocityX * delta;
      var deltaY := velocityY * delta;

      var blockedX := collidesX(deltaX);
      var blockedY := collidesY(deltaY);
      var outside := x + deltaX < 0.0 || x + width + deltaX > mapWidth
                     || y + deltaY < 0.0 || y + height + deltaY > mapHeight;
      if blockedX || blockedY || outside {
        explosion := Some(Particle(x, y, ExplosionLifetime));
        removed := true;
      } else {
        explosion := None;
      }
      // The step is computed once; tie it to the terms the contract uses.
      assert deltaX == velocityX * delta && deltaY == velocityY * delta;
    }
  }
}
