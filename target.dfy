/** A shootable enemy target: it registers with the game-state tracker when
    it wakes, loses health to each hit and, whenever its health is at or below
    zero after a hit, reports its defeat. */
module Targets {
  import opened Game
  import opened Engine

  const InitialHealth := 50.0

  /** Number of defeat reports a target starting with `health` makes over a
      sequence of hits. There is no dead flag, so every lethal hit reports. */
  function Reports(health: real, damages: seq<real>): nat
    decreases |damages|
  {
    if damages == [] then 0
    else
      var h := health - damages[0];
      (if h <= 0.0 then 1 else 0) + Reports(h, damages[1..])
  }

  /** Health after every prefix of the hits stays above zero. */
  ghost predicate StaysAlive(health: real, damages: seq<real>)
  {
    forall k :: 1 <= k <= |damages| ==> health - Sum(damages[..k]) > 0.0
  }

  lemma {:induction false} SumOfPrefix(ds: seq<real>, k: nat)
    requires 0 < k <= |ds|
    ensures Sum(ds[..k]) == ds[0] + Sum(ds[1..][..k - 1])
  {
    assert ds[..k][1..] == ds[1..][..k - 1];
  }

  /** No defeat is reported while health stays above zero. */
  lemma {:induction false} NoReportWhileAlive(health: real, damages: seq<real>)
    requires StaysAlive(health, damages)
    ensures Reports(health, damages) == 0
    decreases |damages|
  {
    if damages != [] {
      var h := health - damages[0];
      SumOfPrefix(damages, 1);
      assert health - Sum(damages[..1]) > 0.0;
      forall k | 1 <= k <= |damages| - 1
        ensures h - Sum(damages[1..][..k]) > 0.0
      {
        SumOfPrefix(damages, k + 1);
        assert health - Sum(damages[..k + 1]) > 0.0;
      }
      NoReportWhileAlive(h, damages[1..]);
    }
  }

  /** Once health is at or below zero, every non-negative hit reports again. */
  lemma {:induction false} EveryLethalHitReports(health: real, damages: seq<real>)
    requires health <= 0.0
    requires NonNegative(damages)
    ensures Reports(health, damages) == |damages|
    decreases |damages|
  {
    if damages != [] {
      assert NonNegative(damages[1..]);
      EveryLethalHitReports(health - damages[0], damages[1..]);
    }
  }

  class Target {
    var health: real
    const manager: GameManager

    /** The field initialiser and `Awake`: exactly one registration. */
    constructor Awake(manager: GameManager)
      requires manager.Valid()
      modifies manager
      ensures health == InitialHealth && this.manager == manager
      ensures manager.Valid()
      ensures manager.State() == Register(old(manager.State()))
    {
      health := InitialHealth;
      this.manager := manager;
      new;
      manager.RegisterEnemy();
    }

    /** Lowers health by exactly `damage`; dies when it is then at or below zero. */
    method TakeDamage(damage: real) returns (died: bool)
      requires manager.Valid()
      modifies this, manager
      ensures health == old(health) - damage
      ensures died <==> health <= 0.0
      ensures manager.Valid()
      ensures manager.State() == if died then Defeat(old(manager.State())) else old(manager.State())
    {
      health := health - damage;
      died := health <= 0.0;
      if died {
        Die();
      }
    }

    /** Reports one defeat; the object's destruction is the engine's. */
    method Die()
      requires manager.Valid()
      modifies manager
      ensures manager.Valid()
      ensures manager.State() == Defeat(old(manager.State()))
    {
      manager.EnemyDefeated();
    }
  }
}
