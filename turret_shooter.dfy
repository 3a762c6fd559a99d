/** The stationary turret: a chain of early-return gates (references set,
    player in range, player not straight above or below, player inside the
    view cone) in front of the fire-cooldown, and a hit-scan shot that only
    ever damages the player. */
module Turret {
  import opened Engine
  import Cooldown

  /** `0.0001f`, the smallest flat squared distance that still has a direction. */
  const MinFlatSqrMagnitude: real := 0.0001

  /** What one frame observes: which references are set, the distance to the
      player, the squared length of the horizontal part of the offset, the
      angle between the gun's forward and that direction (`Vector3.Angle`),
      and `Time.deltaTime`. */
  datatype Aim = Aim(
    hasTarget: bool,
    hasGunHead: bool,
    hasFirePoint: bool,
    distance: real,
    flatSqrMagnitude: real,
    angle: real,
    dt: real)

  /** Where `Update` stops. */
  datatype Gate = MissingReference | OutOfRange | Overhead | OutsideCone | Engaged

  predicate HasReferences(a: Aim)
  {
    a.hasTarget && a.hasGunHead && a.hasFirePoint
  }

  function GateOf(a: Aim, visionRange: real, maxViewAngle: real): (g: Gate)
    ensures g == MissingReference <==> !HasReferences(a)
    ensures g == OutOfRange <==> HasReferences(a) && a.distance > visionRange
    ensures g == Engaged <==>
      && HasReferences(a)
      && a.distance <= visionRange
      && a.flatSqrMagnitude >= MinFlatSqrMagnitude
      && a.angle <= maxViewAngle * 0.5
  {
    if !HasReferences(a) then MissingReference
    else if a.distance > visionRange then OutOfRange
    else if a.flatSqrMagnitude < MinFlatSqrMagnitude then Overhead
    else if a.angle > maxViewAngle * 0.5 then OutsideCone
    else Engaged
  }

  /** A turret with a longer range and a wider cone engages wherever a
      narrower one does. */
  lemma WiderTurretStillEngages(a: Aim, v1: real, m1: real, v2: real, m2: real)
    requires v1 <= v2 && m1 <= m2
    requires GateOf(a, v1, m1) == Engaged
    ensures GateOf(a, v2, m2) == Engaged
  {
  }

  /** The shot damages a Player-tagged hit that has player health, and
      nothing else. */
  function ShotDamage(hit: Option<Collider>, damage: int): (r: DamageCall)
    ensures r != NoDamage <==> hit.Some? && hit.value.tag == PlayerTag && hit.value.hasPlayerHealth
    ensures r != NoDamage ==> r == DamagePlayer(damage)
  {
    match hit
    case None => NoDamage
    case Some(c) => if c.tag == PlayerTag && c.hasPlayerHealth then DamagePlayer(damage) else NoDamage
  }

  class TurretShooter {
    const visionRange: real
    const maxViewAngle: real
    const fireCooldown: real
    const damage: int

    var fireTimer: real

    constructor (visionRange: real, maxViewAngle: real, fireCooldown: real, damage: int)
      ensures this.visionRange == visionRange && this.maxViewAngle == maxViewAngle
      ensures this.fireCooldown == fireCooldown && this.damage == damage
      ensures fireTimer == 0.0
    {
      this.visionRange, this.maxViewAngle := visionRange, maxViewAngle;
      this.fireCooldown, this.damage := fireCooldown, damage;
      fireTimer := 0.0;
    }

    /** One frame. Until every gate passes nothing fires and the timer is
        left alone; once they pass, the cooldown runs. Turning the gun head
        is rotation only. */
    method Update(a: Aim, hit: Option<Collider>) returns (fired: bool, dealt: DamageCall)
      modifies this
      ensures GateOf(a, visionRange, maxViewAngle) != Engaged ==> fireTimer == old(fireTimer) && !fired
      ensures GateOf(a, visionRange, maxViewAngle) == Engaged ==>
        var tick := Cooldown.Step(old(fireTimer), a.dt, fireCooldown);
        fireTimer == tick.timer && fired == tick.fired
      ensures dealt == if fired then ShotDamage(hit, damage) else NoDamage
    {
      fired, dealt := false, NoDamage;
      if !a.hasTarget || !a.hasGunHead || !a.hasFirePoint {
        return;
      }
      var dist := a.distance;
      if dist > visionRange {
        return;
      }
      if a.flatSqrMagnitude < MinFlatSqrMagnitude {
        return;
      }
      var angle := a.angle;
      if angle > maxViewAngle * 0.5 {
        return;
      }
      fireTimer := fireTimer - a.dt;
      if fireTimer <= 0.0 {
        fired := true;
        dealt := FireRaycast(hit);
        fireTimer := fireCooldown;
      }
    }

    /** The ray's damage dispatch; flash, sound and impact effects are the engine's. */
    method FireRaycast(hit: Option<Collider>) returns (dealt: DamageCall)
      ensures dealt == ShotDamage(hit, damage)
    {
      dealt := NoDamage;
      if hit.Some? {
        if hit.value.tag == PlayerTag {
          if hit.value.hasPlayerHealth {
            dealt := DamagePlayer(damage);
          }
        }
      }
    }
  }
}
