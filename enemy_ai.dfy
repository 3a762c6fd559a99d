/** What the two enemy controllers have in common: the three AI states, the
    memoryless choice among them from the distance to the player, the cyclic
    patrol index, and the per-frame observations the navigation agent and
    the scene provide. */
module EnemyAI {

  datatype State = Patrolling | Chasing | Attacking

  /** The state `Update` ends in: no player or a player out of sight gives
      Patrolling, a player in sight but beyond the attack range Chasing, and
      a player within the attack range Attacking. The state before the frame
      plays no part. */
  function SelectState(hasTarget: bool, distance: real, visionRange: real, attackRange: real): (s: State)
    ensures s == Patrolling <==> !hasTarget || distance > visionRange
    ensures s == Chasing <==> hasTarget && attackRange < distance <= visionRange
    ensures s == Attacking <==> hasTarget && distance <= visionRange && distance <= attackRange
  {
    if !hasTarget then Patrolling
    else if distance > visionRange then Patrolling
    else if distance > attackRange then Chasing
    else Attacking
  }

  function Aggression(s: State): nat
  {
    match s
    case Patrolling => 0
    case Chasing => 1
    case Attacking => 2
  }

  /** A closer player never meets a less aggressive state. */
  lemma CloserIsNoLessAggressive(d1: real, d2: real, visionRange: real, attackRange: real)
    requires d1 <= d2
    ensures Aggression(SelectState(true, d1, visionRange, attackRange))
         >= Aggression(SelectState(true, d2, visionRange, attackRange))
  {
  }

  /** The thresholds are inclusive: a player exactly at the vision range is
      not ignored, and one exactly at the attack range is attacked. */
  lemma BoundariesAreInclusive(visionRange: real, attackRange: real)
    requires attackRange <= visionRange
    ensures SelectState(true, visionRange, visionRange, attackRange) != Patrolling
    ensures SelectState(true, attackRange, visionRange, attackRange) == Attacking
  {
  }

  /** With no player the enemy patrols whatever the distance reads. */
  lemma NoTargetPatrols(distance: real, visionRange: real, attackRange: real)
    ensures SelectState(false, distance, visionRange, attackRange) == Patrolling
  {
  }

  /** The next patrol point, `(patrolIndex + 1) % patrolPoints.Length`. */
  function NextPatrolIndex(i: nat, n: nat): (r: nat)
    requires n > 0
    ensures r < n
    ensures i < n ==> r == if i == n - 1 then 0 else i + 1
  {
    (i + 1) % n
  }

  /** The patrol index after `k` arrivals. */
  function AdvanceBy(i: nat, n: nat, k: nat): (r: nat)
    requires i < n
    ensures r < n
    decreases k
  {
    if k == 0 then i else NextPatrolIndex(AdvanceBy(i, n, k - 1), n)
  }

  /** Before wrapping around, `k` arrivals move the index forward by `k`. */
  lemma {:induction false} AdvanceWithinLap(i: nat, n: nat, k: nat)
    requires i + k < n
    ensures AdvanceBy(i, n, k) == i + k
    decreases k
  {
    if k > 0 {
      AdvanceWithinLap(i, n, k - 1);
    }
  }

  lemma {:induction false} AdvanceComposes(i: nat, n: nat, a: nat, b: nat)
    requires i < n
    ensures AdvanceBy(i, n, a + b) == AdvanceBy(AdvanceBy(i, n, a), n, b)
    decreases b
  {
    if b > 0 {
      AdvanceComposes(i, n, a, b - 1);
    }
  }

  /** From any point, the arrivals that finish the lap lead to the first point. */
  lemma LapEndsAtFirstPoint(i: nat, n: nat)
    requires i < n
    ensures AdvanceBy(i, n, n - i) == 0
  {
    AdvanceWithinLap(i, n, n - i - 1);
  }

  /** Arriving over and over, the enemy reaches every patrol point within one lap. */
  lemma PatrolVisitsEveryPoint(i: nat, n: nat, j: nat)
    requires i < n && j < n
    ensures AdvanceBy(i, n, if j >= i then j - i else j + n - i) == j
  {
    if j >= i {
      AdvanceWithinLap(i, n, j - i);
    } else {
      LapEndsAtFirstPoint(i, n);
      AdvanceComposes(i, n, n - i, j);
      AdvanceWithinLap(0, n, j);
    }
  }

  /** After exactly as many arrivals as there are points, the enemy is back
      where it started. */
  lemma PatrolReturnsAfterLap(i: nat, n: nat)
    requires i < n
    ensures AdvanceBy(i, n, n) == i
  {
    LapEndsAtFirstPoint(i, n);
    AdvanceComposes(i, n, n - i, i);
    AdvanceWithinLap(0, n, i);
  }

  /** A `SetDestination` target: a patrol point or the player's position. */
  datatype Destination = PatrolPoint(index: nat) | PlayerPosition

  /** What one frame observes: whether the player reference is set, the
      distance to it, the agent's `pathPending` and `remainingDistance`, and
      `Time.deltaTime`. */
  datatype Frame = Frame(hasTarget: bool, distance: real, pathPending: bool, remainingDistance: real, dt: real)

  /** The agent has reached its patrol point. */
  predicate Arrived(f: Frame, tolerance: real)
  {
    !f.pathPending && f.remainingDistance <= tolerance
  }
}
