/** The hit-scan enemy: each frame it picks Patrolling, Chasing or Attacking
    from the distance to the player, walks its patrol points, follows the
    player, or stops and fires an instant ray on a cooldown. */
module HitscanEnemy {
  import opened Engine
  import opened EnemyAI
  import Cooldown

  /** What a ray shot does: a Player-tagged hit damages the player's health
      if it has one; any other hit damages its damageable component if it has
      one; without a fire point no ray is cast. */
  function RayDamage(hasFirePoint: bool, hit: Option<Collider>, damage: int): (r: DamageCall)
    ensures r.DamagePlayer? <==> hasFirePoint && hit.Some? && hit.value.tag == PlayerTag && hit.value.hasPlayerHealth
    ensures r.DamageDamageable? <==> hasFirePoint && hit.Some? && hit.value.tag != PlayerTag && hit.value.hasDamageable
    ensures !r.DamageTarget?
    ensures r != NoDamage ==> r.amount == damage
  {
    if !hasFirePoint then NoDamage
    else match hit
      case None => NoDamage
      case Some(c) =>
        if c.tag == PlayerTag then (if c.hasPlayerHealth then DamagePlayer(damage) else NoDamage)
        else if c.hasDamageable then DamageDamageable(damage)
        else NoDamage
  }

  /** A Player-tagged collider is never treated as a generic damageable, even
      when it has no player health. */
  lemma PlayerHitNeverDamagesDamageable(hasFirePoint: bool, c: Collider, damage: int)
    requires c.tag == PlayerTag
    ensures !RayDamage(hasFirePoint, Some(c), damage).DamageDamageable?
  {
  }

  class EnemyController {
    // Inspector settings and the references looked up in Awake.
    const visionRange: real
    const attackRange: real
    const fireCooldown: real
    const damage: int
    const patrolCount: nat          // patrolPoints.Length; 0 when unset
    const patrolPointTolerance: real
    const hasAgent: bool
    const hasFirePoint: bool

    var currentState: State
    var patrolIndex: nat
    var fireTimer: real
    // What the navigation agent was last told.
    var agentStopped: bool
    var destination: Option<Destination>

    ghost predicate Valid()
      reads this
    {
      patrolIndex < patrolCount || patrolIndex == 0
    }

    /** Field initialisers and `Awake`. */
    constructor (visionRange: real, attackRange: real, fireCooldown: real, damage: int,
                 patrolCount: nat, patrolPointTolerance: real, hasAgent: bool, hasFirePoint: bool)
      ensures Valid()
      ensures this.visionRange == visionRange && this.attackRange == attackRange
      ensures this.fireCooldown == fireCooldown && this.damage == damage
      ensures this.patrolCount == patrolCount && this.patrolPointTolerance == patrolPointTolerance
      ensures this.hasAgent == hasAgent && this.hasFirePoint == hasFirePoint
      ensures currentState == Patrolling && patrolIndex == 0 && fireTimer == 0.0
      ensures !agentStopped && destination == None
    {
      this.visionRange, this.attackRange := visionRange, attackRange;
      this.fireCooldown, this.damage := fireCooldown, damage;
      this.patrolCount, this.patrolPointTolerance := patrolCount, patrolPointTolerance;
      this.hasAgent, this.hasFirePoint := hasAgent, hasFirePoint;
      currentState, patrolIndex, fireTimer := Patrolling, 0, 0.0;
      agentStopped, destination := false, None;
    }

    /** Patrol from the current point when there are points, else chase. */
    method Start()
      requires Valid()
      modifies this
      ensures Valid()
      ensures currentState == if patrolCount > 0 then Patrolling else Chasing
      ensures destination == if patrolCount > 0 && hasAgent then Some(PatrolPoint(patrolIndex)) else old(destination)
      ensures patrolIndex == old(patrolIndex) && fireTimer == old(fireTimer) && agentStopped == old(agentStopped)
    {
      if patrolCount > 0 {
        currentState := Patrolling;
        SetNextPatrolDestination();
      } else {
        currentState := Chasing;
      }
    }

    /** One frame: choose the state, then run its handler. Returns whether the
        cooldown fired and the damage call the shot made. */
    method Update(f: Frame, hit: Option<Collider>) returns (fired: bool, dealt: DamageCall)
      requires Valid()
      modifies this
      ensures Valid()
      ensures currentState == SelectState(f.hasTarget, f.distance, visionRange, attackRange)
      ensures var advance := currentState == Patrolling && hasAgent && patrolCount > 0 && Arrived(f, patrolPointTolerance);
        && patrolIndex == (if advance then NextPatrolIndex(old(patrolIndex), patrolCount) else old(patrolIndex))
        && destination == (if advance then Some(PatrolPoint(patrolIndex))
                           else if currentState == Chasing && hasAgent then Some(PlayerPosition)
                           else old(destination))
      ensures agentStopped == (if !hasAgent then old(agentStopped)
                               else if currentState == Attacking then true
                               else if currentState == Chasing || patrolCount > 0 then false
                               else old(agentStopped))
      ensures var tick := Cooldown.Step(old(fireTimer), f.dt, fireCooldown);
        if currentState == Attacking then fireTimer == tick.timer && fired == tick.fired
        else fireTimer == old(fireTimer) && !fired
      ensures dealt == if fired then RayDamage(hasFirePoint, hit, damage) else NoDamage
    {
      if !f.hasTarget {
        if currentState != Patrolling {
          currentState := Patrolling;
        }
      } else {
        var distToPlayer := f.distance;
        if distToPlayer > visionRange {
          currentState := Patrolling;
        } else {
          currentState := if distToPlayer > attackRange then Chasing else Attacking;
        }
      }

      fired, dealt := false, NoDamage;
      match currentState {
        case Patrolling => HandlePatrol(f);
        case Chasing => HandleChase(f.hasTarget);
        case Attacking => fired, dealt := HandleAttack(f.hasTarget, f.dt, hit);
      }
    }

    method HandlePatrol(f: Frame)
      requires Valid()
      modifies this
      ensures Valid()
      ensures var advance := hasAgent && patrolCount > 0 && Arrived(f, patrolPointTolerance);
        && patrolIndex == (if advance then NextPatrolIndex(old(patrolIndex), patrolCount) else old(patrolIndex))
        && destination == (if advance then Some(PatrolPoint(patrolIndex)) else old(destination))
      ensures agentStopped == if hasAgent && patrolCount > 0 then false else old(agentStopped)
      ensures currentState == old(currentState) && fireTimer == old(fireTimer)
    {
      if !hasAgent || patrolCount == 0 {
        return;
      }
      agentStopped := false;
      if !f.pathPending && f.remainingDistance <= patrolPointTolerance {
        patrolIndex := (patrolIndex + 1) % patrolCount;
        SetNextPatrolDestination();
      }
    }

    method SetNextPatrolDestination()
      requires Valid()
      modifies this`destination
      ensures destination == if hasAgent && patrolCount > 0 then Some(PatrolPoint(patrolIndex)) else old(destination)
      ensures patrolCount > 0 ==> patrolIndex < patrolCount
    {
      if !hasAgent || patrolCount == 0 {
        return;
      }
      destination := Some(PatrolPoint(patrolIndex));
    }

    method HandleChase(hasTarget: bool)
      modifies this`agentStopped, this`destination
      ensures agentStopped == if hasAgent && hasTarget then false else old(agentStopped)
      ensures destination == if hasAgent && hasTarget then Some(PlayerPosition) else old(destination)
    {
      if !hasAgent || !hasTarget {
        return;
      }
      agentStopped := false;
      destination := Some(PlayerPosition);
    }

    /** Stop, then count down and fire at most once. Turning to face the
        player is rotation only. */
    method HandleAttack(hasTarget: bool, dt: real, hit: Option<Collider>) returns (fired: bool, dealt: DamageCall)
      modifies this`agentStopped, this`fireTimer
      ensures agentStopped == if hasAgent then true else old(agentStopped)
      ensures var tick := Cooldown.Step(old(fireTimer), dt, fireCooldown);
        if hasTarget then fireTimer == tick.timer && fired == tick.fired
        else fireTimer == old(fireTimer) && !fired
      ensures dealt == if fired then RayDamage(hasFirePoint, hit, damage) else NoDamage
    {
      fired, dealt := false, NoDamage;
      if hasAgent {
        agentStopped := true;
      }
      if !hasTarget {
        return;
      }
      fireTimer := fireTimer - dt;
      if fireTimer <= 0.0 {
        fired := true;
        dealt := FireRay(hit);
        fireTimer := fireCooldown;
      }
    }

    /** The ray's damage dispatch; flash, sound and impact effects are the engine's. */
    method FireRay(hit: Option<Collider>) returns (dealt: DamageCall)
      ensures dealt == RayDamage(hasFirePoint, hit, damage)
    {
      dealt := NoDamage;
      if !hasFirePoint {
        return;
      }
      if hit.Some? {
        var c := hit.value;
        if c.tag == PlayerTag {
          if c.hasPlayerHealth {
            dealt := DamagePlayer(damage);
          }
        } else {
          if c.hasDamageable {
            dealt := DamageDamageable(damage);
          }
        }
      }
    }
  }
}
