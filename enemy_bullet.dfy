/** The enemy's projectile: each frame it sweeps a ray from where it was to
    where it is going; a hit on the player damages the player and ends the
    bullet, a hit on an enemy is passed through, and any other hit ends the
    bullet without damage. */
module Bullet {
  import opened Engine

  /** What one frame's sweep does with the bullet. */
  datatype Resolution = Resolution(dealt: DamageCall, destroyed: bool)

  /** The hit dispatch of `Update`. */
  function Resolve(hit: Option<Collider>, damage: int): (r: Resolution)
    ensures r.destroyed <==> hit.Some? && hit.value.tag != EnemyTag
    ensures r.dealt != NoDamage <==> hit.Some? && hit.value.tag == PlayerTag && hit.value.hasPlayerHealth
    ensures r.dealt != NoDamage ==> r.dealt == DamagePlayer(damage)
    ensures r.dealt != NoDamage ==> r.destroyed
  {
    match hit
    case None => Resolution(NoDamage, false)
    case Some(c) =>
      var dealt := if c.tag == PlayerTag && c.hasPlayerHealth then DamagePlayer(damage) else NoDamage;
      Resolution(dealt, c.tag != EnemyTag)
  }

  /** `transform.position + transform.forward * speed * Time.deltaTime`. */
  function NextPosition(position: Vec3, forward: Vec3, speed: real, dt: real): (r: Vec3)
    ensures speed * dt == 0.0 || forward == Zero ==> r == position
  {
    Add(position, Scale(forward, speed * dt))
  }

  class EnemyBullet {
    const speed: real
    const damage: int

    var position: Vec3
    var lastPosition: Vec3
    var destroyed: bool

    ghost predicate Valid()
      reads this
    {
      !destroyed ==> lastPosition == position
    }

    /** Spawned at `position`; `Start` records it as the last position. The
        timed self-destruction after `lifeTime` is the engine's. */
    constructor (position: Vec3, speed: real, damage: int)
      ensures Valid() && !destroyed
      ensures this.position == position && this.speed == speed && this.damage == damage
    {
      this.speed, this.damage := speed, damage;
      this.position, this.lastPosition := position, position;
      destroyed := false;
    }

    /** One frame; `hit` is the first collider the sweep from the last
        position towards the next one meets, if any. */
    method Update(forward: Vec3, dt: real, hit: Option<Collider>) returns (dealt: DamageCall)
      requires Valid() && !destroyed
      modifies this
      ensures Valid()
      ensures var r := Resolve(hit, damage);
        && dealt == r.dealt
        && destroyed == r.destroyed
        && position == (if r.destroyed then old(position) else NextPosition(old(position), forward, speed, dt))
    {
      var nextPosition := NextPosition(position, forward, speed, dt);
      dealt := NoDamage;
      if hit.Some? {
        var c := hit.value;
        if c.tag == PlayerTag {
          if c.hasPlayerHealth {
            dealt := DamagePlayer(damage);
          }
        }
        if c.tag != EnemyTag {
          destroyed := true;
          return;
        }
      }
      position := nextPosition;
      lastPosition := position;
    }
  }

  /** A bullet that meets only enemies or nothing is never destroyed and
      never deals damage. */
  lemma PassThroughEnemies(hit: Option<Collider>, damage: int)
    requires hit.None? || hit.value.tag == EnemyTag
    ensures Resolve(hit, damage) == Resolution(NoDamage, false)
  {
  }
}
