/** The bullet-firing enemy (the copy under `enemies/`): the same three-state
    machine as the hit-scan enemy, but it looks its agent up in `Start` and
    shoots by spawning a projectile instead of casting a ray. */
module BulletEnemy {
  import opened Engine
  import opened EnemyAI
  import Cooldown

  /** `Shoot` spawns a bullet exactly when both the fire point and the bullet
      prefab are set. */
  predicate Spawns(hasFirePoint: bool, hasBulletPrefab: bool)
  {
    hasFirePoint && hasBulletPrefab
  }

  class EnemyController {
    const visionRange: real
    const attackRange: real
    const fireCooldown: real
    const patrolCount: nat          // patrolPoints.Length; 0 when unset
    const patrolPointTolerance: real
    const hasAgentComponent: bool   // whether GetComponent<NavMeshAgent>() finds one
    const hasFirePoint: bool
    const hasBulletPrefab: bool

    var hasAgent: bool              // the `agent` field, null until Start
    var currentState: State
    var patrolIndex: nat
    var fireTimer: real
    var agentStopped: bool
    var destination: Option<Destination>

    ghost predicate Valid()
      reads this
    {
      patrolIndex < patrolCount || patrolIndex == 0
    }

    constructor (visionRange: real, attackRange: real, fireCooldown: real, patrolCount: nat,
                 patrolPointTolerance: real, hasAgentComponent: bool, hasFirePoint: bool, hasBulletPrefab: bool)
      ensures Valid()
      ensures this.visionRange == visionRange && this.attackRange == attackRange
      ensures this.fireCooldown == fireCooldown && this.patrolCount == patrolCount
      ensures this.patrolPointTolerance == patrolPointTolerance
      ensures this.hasAgentComponent == hasAgentComponent
      ensures this.hasFirePoint == hasFirePoint && this.hasBulletPrefab == hasBulletPrefab
      ensures !hasAgent && currentState == Patrolling && patrolIndex == 0 && fireTimer == 0.0
      ensures !agentStopped && destination == None
    {
      this.visionRange, this.attackRange := visionRange, attackRange;
      this.fireCooldown, this.patrolCount := fireCooldown, patrolCount;
      this.patrolPointTolerance, this.hasAgentComponent := patrolPointTolerance, hasAgentComponent;
      this.hasFirePoint, this.hasBulletPrefab := hasFirePoint, hasBulletPrefab;
      hasAgent, currentState, patrolIndex, fireTimer := false, Patrolling, 0, 0.0;
      agentStopped, destination := false, None;
    }

    /** Look up the agent, then patrol from the first point when there are
        points, else chase. */
    method Start()
      requires Valid()
      modifies this
      ensures Valid()
      ensures hasAgent == hasAgentComponent
      ensures currentState == if patrolCount > 0 then Patrolling else Chasing
      ensures destination == if patrolCount > 0 && hasAgent then Some(PatrolPoint(patrolIndex)) else old(destination)
      ensures patrolIndex == old(patrolIndex) && fireTimer == old(fireTimer) && agentStopped == old(agentStopped)
    {
      hasAgent := hasAgentComponent;
      if patrolCount > 0 {
        currentState := Patrolling;
        SetNextPatrolDestination();
      } else {
        currentState := Chasing;
      }
    }

    /** One frame. Returns whether the cooldown fired and whether a bullet
        was spawned. */
    method Update(f: Frame) returns (fired: bool, spawned: bool)
      requires Valid()
      modifies this
      ensures Valid()
      ensures hasAgent == old(hasAgent)
      ensures currentState == SelectState(f.hasTarget, f.distance, visionRange, attackRange)
      ensures var advance := currentState == Patrolling && hasAgent && patrolCount > 0 && Arrived(f, patrolPointTolerance);
        && patrolIndex == (if advance then NextPatrolIndex(old(patrolIndex), patrolCount) else old(patrolIndex))
        && destination == (if advance then Some(PatrolPoint(patrolIndex))
                           else if currentState == Chasing && hasAgent then Some(PlayerPosition)
                           else old(destination))
      ensures agentStopped == (if !hasAgent then old(agentStopped)
                               else if currentState == Attacking then true
                               else if currentState == Chasing || patrolCount > 0 then false
                               else old(agentStopped))
      ensures var tick := Cooldown.Step(old(fireTimer), f.dt, fireCooldown);
        if currentState == Attacking then fireTimer == tick.timer && fired == tick.fired
        else fireTimer == old(fireTimer) && !fired
      ensures spawned <==> fired && Spawns(hasFirePoint, hasBulletPrefab)
    {
      if !f.hasTarget {
        if currentState != Patrolling {
          currentState := Patrolling;
        }
      } else {
        var distToPlayer := f.distance;
        if distToPlayer > visionRange {
          currentState := Patrolling;
        } else {
          if distToPlayer > attackRange {
            currentState := Chasing;
          } else {
            currentState := Attacking;
          }
        }
      }

      fired, spawned := false, false;
      match currentState {
        case Patrolling => HandlePatrol(f);
        case Chasing => HandleChase(f.hasTarget);
        case Attacking => fired, spawned := HandleAttack(f.hasTarget, f.dt);
      }
    }

    method HandlePatrol(f: Frame)
      requires Valid()
      modifies this
      ensures Valid()
      ensures var advance := hasAgent && patrolCount > 0 && Arrived(f, patrolPointTolerance);
        && patrolIndex == (if advance then NextPatrolIndex(old(patrolIndex), patrolCount) else old(patrolIndex))
        && destination == (if advance then Some(PatrolPoint(patrolIndex)) else old(destination))
      ensures agentStopped == if hasAgent && patrolCount > 0 then false else old(agentStopped)
      ensures hasAgent == old(hasAgent) && currentState == old(currentState) && fireTimer == old(fireTimer)
    {
      if !hasAgent || patrolCount == 0 {
        return;
      }
      agentStopped := false;
      if !f.pathPending && f.remainingDistance <= patrolPointTolerance {
        patrolIndex := (patrolIndex + 1) % patrolCount;
        SetNextPatrolDestination();
      }
    }

    method SetNextPatrolDestination()
      requires Valid()
      modifies this`destination
      ensures destination == if hasAgent && patrolCount > 0 then Some(PatrolPoint(patrolIndex)) else old(destination)
      ensures patrolCount > 0 ==> patrolIndex < patrolCount
    {
      if !hasAgent || patrolCount == 0 {
        return;
      }
      destination := Some(PatrolPoint(patrolIndex));
    }

    method HandleChase(hasTarget: bool)
      modifies this`agentStopped, this`destination
      ensures agentStopped == if hasAgent && hasTarget then false else old(agentStopped)
      ensures destination == if hasAgent && hasTarget then Some(PlayerPosition) else old(destination)
    {
      if !hasAgent || !hasTarget {
        return;
      }
      agentStopped := false;
      destination := Some(PlayerPosition);
    }

    method HandleAttack(hasTarget: bool, dt: real) returns (fired: bool, spawned: bool)
      modifies this`agentStopped, this`fireTimer
      ensures agentStopped == if hasAgent then true else old(agentStopped)
      ensures var tick := Cooldown.Step(old(fireTimer), dt, fireCooldown);
        if hasTarget then fireTimer == tick.timer && fired == tick.fired
        else fireTimer == old(fireTimer) && !fired
      ensures spawned <==> fired && Spawns(hasFirePoint, hasBulletPrefab)
    {
      fired, spawned := false, false;
      if hasAgent {
        agentStopped := true;
      }
      if !hasTarget {
        return;
      }
      fireTimer := fireTimer - dt;
      if fireTimer <= 0.0 {
        fired := true;
        spawned := Shoot();
        fireTimer := fireCooldown;
      }
    }

    method Shoot() returns (spawned: bool)
      ensures spawned <==> Spawns(hasFirePoint, hasBulletPrefab)
    {
      if !hasFirePoint || !hasBulletPrefab {
        return false;
      }
      spawned := true;
    }
  }
}
