/** The player's health: an integer that damage lowers without clamping, and
    a notification to the game-state tracker every time it is at or below
    zero after a hit. */
module Player {
  import opened Game

  const InitialHealth := 100

  /** Whether a hit that leaves `health` notifies the tracker. */
  predicate Notifies(health: int)
  {
    health <= 0
  }

  /** Health after `k` hits of `damage` each, starting from `health`. */
  function HealthAfterHits(health: int, damage: int, k: nat): int
    decreases k
  {
    if k == 0 then health else HealthAfterHits(health, damage, k - 1) - damage
  }

  lemma {:induction false} HealthAfterHitsIsLinear(health: int, damage: int, k: nat)
    ensures HealthAfterHits(health, damage, k) == health - k * damage
    decreases k
  {
    if k > 0 {
      HealthAfterHitsIsLinear(health, damage, k - 1);
    }
  }

  /** From 100 health and hits of 10, hit number `k` notifies exactly from the
      tenth hit on. */
  lemma TenthHitIsFirstToNotify(k: nat)
    requires k >= 1
    ensures Notifies(HealthAfterHits(InitialHealth, 10, k)) <==> k >= 10
  {
    HealthAfterHitsIsLinear(InitialHealth, 10, k);
  }

  /** There is no dead flag: once at or below zero, every further
      non-negative hit notifies again. */
  lemma {:induction false} DeadKeepsNotifying(health: int, damage: int, k: nat)
    requires Notifies(health) && damage >= 0
    ensures Notifies(HealthAfterHits(health, damage, k))
    decreases k
  {
    if k > 0 {
      DeadKeepsNotifying(health, damage, k - 1);
    }
  }

  /** The tracker after a sequence of hits on a player that starts with
      `health`: every notifying hit is a `PlayerDied` call. */
  function TrackerAfterHits(health: int, t: Tracker, damages: seq<int>): Tracker
    decreases |damages|
  {
    if damages == [] then t
    else
      var h := health - damages[0];
      TrackerAfterHits(h, if Notifies(h) then Died(t) else t, damages[1..])
  }

  /** However often the player is hit after death, the lose screen is shown
      at most once and an already ended game is left as it was. */
  lemma {:induction false} RepeatedDeathLosesOnce(health: int, t: Tracker, damages: seq<int>)
    requires Consistent(t)
    ensures Consistent(TrackerAfterHits(health, t, damages))
    ensures TrackerAfterHits(health, t, damages).screenActivations <= 1
    ensures t.ended ==> TrackerAfterHits(health, t, damages) == t
    decreases |damages|
  {
    if damages != [] {
      var h := health - damages[0];
      RepeatedDeathLosesOnce(h, if Notifies(h) then Died(t) else t, damages[1..]);
    }
  }

  /** The first hit that leaves a running game's player at or below zero
      health ends the game on the lose screen, and no later hit undoes it. */
  lemma FirstDeathLoses(health: int, t: Tracker, damages: seq<int>)
    requires Consistent(t) && !t.ended
    requires |damages| > 0 && Notifies(health - damages[0])
    ensures var r := TrackerAfterHits(health, t, damages);
      r.ended && r.loseShown && !r.winShown && r.timeScale == 0.0 && r.screenActivations == 1
  {
    var h := health - damages[0];
    assert TrackerAfterHits(health, t, damages) == TrackerAfterHits(h, Died(t), damages[1..]);
    RepeatedDeathLosesOnce(h, Died(t), damages[1..]);
  }

  class PlayerHealth {
    var health: int
    const manager: GameManager

    constructor (manager: GameManager)
      ensures health == InitialHealth && this.manager == manager
    {
      health := InitialHealth;
      this.manager := manager;
    }

    /** Lowers health by exactly `damage` (a negative `damage` raises it) and
        tells the tracker the player died when health is at or below zero. */
    method TakeDamage(damage: int) returns (notified: bool)
      requires manager.Valid()
      modifies this, manager
      ensures health == old(health) - damage
      ensures notified <==> Notifies(health)
      ensures manager.Valid()
      ensures manager.State() == if notified then Died(old(manager.State())) else old(manager.State())
    {
      health := health - damage;
      notified := health <= 0;
      if notified {
        manager.PlayerDied();
      }
    }
  }
}
