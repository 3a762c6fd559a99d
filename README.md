# CTA2 Group 8 gameplay scripts: a Dafny model

This project models the gameplay scripts of a small first-person Unity
game, which pits an umbrella-wielding player against enemies:

- two kinds of patrolling enemy: one fires an instant ray on a cooldown, the other spawns bullets;
- a stationary turret that fires at the player inside a view cone;
- the enemy bullet itself;
- shootable targets that report their death;
- the player's health;
- the game manager, which counts defeated enemies, shows the progress text and ends the game with a win or lose screen;
- a wandering training dummy;
- an editor command that clears the fast-midphase cooking flag on every mesh collider.

Each script that keeps state between frames is a Dafny `class` with the
script's fields. Its methods (`Update`, `TakeDamage`, `RegisterEnemy`, …)
change those fields in place, and each method is proved to follow a pure
transition function (`Game.Defeat`, `Cooldown.Step`, `Umbrella.Step`,
`Dummy.Step`, …). The lemmas prove the scripts' promises about those
functions, over single frames and over whole runs of frames or events.

The engine is outside the model:

- What the engine reports during a frame is a method parameter: `Time.deltaTime`, distances, angles, raycast hits, the navigation agent's path state, key and mouse state, and random draws.
- What a script asks of the engine is a recorded field or a returned value: a `SetDestination`, `isStopped`, a screen activation, `Time.timeScale`, a damage call on the component that was hit, a bullet spawn, a `SetDirty`.

Floating-point quantities are modelled as `real`. C# `int` values are modelled as `int`/`nat`.

Health is never clamped at zero in the code, and the model follows the code:

- A target's or the player's health simply goes negative.
- The player calls `PlayerDied` on every hit taken at or below zero health.
- It is the game manager's `gameEnded` latch that makes only the first of those calls count.

## Model

| member | source | states |
|---|---|---|
| Cooldown.Step | Assets/scripts/EnemyController.cs:130-135 | one cooldown frame fires exactly when the timer minus the frame time reaches zero or below; a firing frame reloads the timer to the cooldown, and a frame that does not fire leaves a positive timer reduced by the frame time |
| Cooldown.FirstEngagedFrameFires | Assets/scripts/TurretShooter.cs:27 | with the timer's initial value 0, the first engaged frame with a non-negative frame time fires |
| Cooldown.AtMostOneShotPerFrame | Assets/scripts/TurretShooter.cs:56-61 | over any run of frames, the number of shots is at most the number of frames |
| Cooldown.NoShotIffWithinBudget | Assets/scripts/EnemyController.cs:130-135 | with non-negative frame times, a run whose total time stays below the timer fires nothing and just subtracts the total; a non-empty run whose total reaches the timer fires at least once |
| Engine.NegInvolutive | Assets/scripts/AutoMoveDummy.cs:72-75 | reversing a direction twice gives back the original direction |
| Game.ProgressTextInjective | Assets/scripts/GameManager.cs:39-42 | the text "Enemies Defeated: d/t" determines both d and t, so different counts never show the same text |
| Game.DecimalValueOfNatToString | Assets/scripts/GameManager.cs:41 | the decimal rendering of a count reads back as that count |
| Game.NatToString | Assets/scripts/GameManager.cs:41 | the decimal rendering of a count is non-empty, all digits, and starts with 0 only for the count 0 |
| Game.ProgressText | Assets/scripts/GameManager.cs:41 | the interpolated progress text starts with "Enemies Defeated: " followed by at least the two numbers and the slash; `Game.ProgressTextInjective` shows it determines both counts |
| Game.Register | Assets/scripts/GameManager.cs:22-26 | registering adds one to the total, leaves the defeated count and every end-of-game field alone, and refreshes the progress text |
| Game.Defeat | Assets/scripts/GameManager.cs:28-37 | a defeat always adds one to the defeated count, even after the game ended; it refreshes the text; the win screen comes on exactly when the game had not ended and defeated ≥ total; a game that already ended keeps its screens and time scale; a new end adds exactly one screen activation and sets the time scale to 0 |
| Game.Died | Assets/scripts/GameManager.cs:44-50 | the player's death ends a running game on the lose screen with time scale 0 and one more screen activation; once the game has ended it changes nothing |
| Game.Win | Assets/scripts/GameManager.cs:52-57 | winning latches the end, shows the win screen, leaves the lose screen as it was, adds one screen activation and sets the time scale to 0, touching neither count nor the text |
| Game.Lose | Assets/scripts/GameManager.cs:59-64 | losing latches the end, shows the lose screen, leaves the win screen as it was, adds one screen activation and sets the time scale to 0, touching neither count nor the text |
| Game.ConsistentInitial | Assets/scripts/GameManager.cs:8-11 | the initial state (no enemies, no screen, time scale 1) satisfies the end-of-game invariant |
| Game.RunKeepsConsistent | Assets/scripts/GameManager.cs:33-64 | every sequence of register, defeat and death events keeps the invariant: the game has ended iff a screen is showing; win and lose are never both shown; at most one screen activation ever happens; an ended game has time scale 0 |
| Game.EndIsLatched | Assets/scripts/GameManager.cs:46-64 | once the game has ended, later events never change which screen shows, the time scale or the activation count |
| Game.RunCounts | Assets/scripts/GameManager.cs:22-31 | after any event sequence, the total equals the initial total plus the number of registrations, and the defeated count equals the initial count plus the number of defeats |
| Game.GameManager.constructor | Assets/scripts/GameManager.cs:8-11 | the manager starts with zero counts, no screen and time scale 1, in a consistent state |
| Game.GameManager.RegisterEnemy | Assets/scripts/GameManager.cs:22-26 | the fields change exactly as `Game.Register` says, and the invariant is kept |
| Game.GameManager.EnemyDefeated | Assets/scripts/GameManager.cs:28-37 | the fields change exactly as `Game.Defeat` says, and the invariant is kept |
| Game.GameManager.UpdateEnemyProgress | Assets/scripts/GameManager.cs:39-42 | the progress text becomes "Enemies Defeated: defeated/total", and nothing else changes |
| Game.GameManager.PlayerDied | Assets/scripts/GameManager.cs:44-50 | the fields change exactly as `Game.Died` says, and the invariant is kept |
| Game.GameManager.WinGame | Assets/scripts/GameManager.cs:52-57 | the game ends, the win screen is activated and the time scale becomes 0 |
| Game.GameManager.LoseGame | Assets/scripts/GameManager.cs:59-64 | the game ends, the lose screen is activated and the time scale becomes 0 |
| Player.HealthAfterHitsIsLinear | Assets/scripts/PlayerHealth.cs:9 | k hits of the same damage leave health − k·damage |
| Player.TenthHitIsFirstToNotify | Assets/scripts/PlayerHealth.cs:5-12 | from 100 health, 10-damage hits notify the manager from the tenth hit on and never before |
| Player.DeadKeepsNotifying | Assets/scripts/PlayerHealth.cs:9-16 | with non-negative damage, once health is at or below zero every further hit notifies again |
| Player.RepeatedDeathLosesOnce | Assets/scripts/PlayerHealth.cs:11-14 | however many notifying hits arrive, the manager shows the lose screen and pauses at most once, keeps its invariant, and an already ended game is left exactly as it was |
| Player.FirstDeathLoses | Assets/scripts/PlayerHealth.cs:11-14 | in a running game, a first hit that leaves the player at or below zero ends the game on the lose screen, with no win screen, time scale 0 and exactly one screen activation, whatever hits follow |
| Player.PlayerHealth.constructor | Assets/scripts/PlayerHealth.cs:5 | health starts at 100 |
| Player.PlayerHealth.TakeDamage | Assets/scripts/PlayerHealth.cs:7-17 | health drops by the damage; the manager is notified, and moves as `Game.Died` says, exactly when the new health is ≤ 0 |
| Targets.NoReportWhileAlive | Assets/scripts/Target.cs:12-19 | while every prefix of the damage taken leaves health positive, the target reports no defeat |
| Targets.EveryLethalHitReports | Assets/scripts/Target.cs:12-24 | with non-negative damage, once health is ≤ 0 every further hit reports a defeat again |
| Targets.Target.Awake | Assets/scripts/Target.cs:5-10 | a new target has 50 health and registers itself with the manager once, as `Game.Register` says |
| Targets.Target.TakeDamage | Assets/scripts/Target.cs:12-19 | models `takeDamage`: health drops by the damage; the target dies, and the manager moves as `Game.Defeat` says, exactly when the new health is ≤ 0 |
| Targets.Target.Die | Assets/scripts/Target.cs:21-25 | the manager records one defeat, as `Game.Defeat` says |
| EnemyAI.SelectState | Assets/scripts/EnemyController.cs:66-81 | the chosen state depends only on the frame, not on the previous state: Patrolling iff there is no player or the player is beyond the vision range; Chasing iff the player is in sight but beyond the attack range; Attacking iff the player is within both |
| EnemyAI.CloserIsNoLessAggressive | Assets/scripts/EnemyController.cs:77-80 | moving the player closer never moves the enemy to a less aggressive state |
| EnemyAI.BoundariesAreInclusive | enemies/Assets/scripts/EnemyController.cs:64-74 | a player exactly at the vision range is not ignored, and one exactly at the attack range is attacked |
| EnemyAI.NoTargetPatrols | enemies/Assets/scripts/EnemyController.cs:53-58 | with no player reference the enemy always patrols |
| EnemyAI.NextPatrolIndex | Assets/scripts/EnemyController.cs:99 | the next patrol index stays within the points, and it moves forward by one, wrapping from the last point to the first |
| EnemyAI.PatrolVisitsEveryPoint | enemies/Assets/scripts/EnemyController.cs:101-105 | repeated arrivals reach every patrol point within one lap |
| EnemyAI.PatrolReturnsAfterLap | Assets/scripts/EnemyController.cs:97-100 | after exactly as many arrivals as there are patrol points, the enemy is back at the point it started from |
| HitscanEnemy.RayDamage | Assets/scripts/EnemyController.cs:157-190 | without a fire point no damage is done; a Player-tagged hit damages the player's health iff it has one; a hit on anything else damages its damageable component iff it has one; the amount is the enemy's damage |
| HitscanEnemy.PlayerHitNeverDamagesDamageable | Assets/scripts/EnemyController.cs:174-190 | a Player-tagged hit never goes to the generic damageable branch |
| HitscanEnemy.EnemyController.constructor | Assets/scripts/EnemyController.cs:11-51 | the settings are stored; the enemy starts Patrolling at index 0 with a zero timer |
| HitscanEnemy.EnemyController.Start | Assets/scripts/EnemyController.cs:53-64 | with patrol points, the enemy patrols and is sent to its current point; without them, it chases |
| HitscanEnemy.EnemyController.Update | Assets/scripts/EnemyController.cs:66-89 | the new state is `EnemyAI.SelectState`; only Patrolling can advance the patrol index (on arrival) and set a patrol destination; only Chasing targets the player; Attacking stops the agent and is the only state that runs the cooldown (`Cooldown.Step`), and a shot's damage is `HitscanEnemy.RayDamage` |
| HitscanEnemy.EnemyController.HandlePatrol | Assets/scripts/EnemyController.cs:92-102 | with an agent and patrol points, the agent is not stopped, and on arrival the index advances cyclically and becomes the new destination; otherwise nothing changes |
| HitscanEnemy.EnemyController.SetNextPatrolDestination | Assets/scripts/EnemyController.cs:104-108 | with an agent and patrol points, the destination becomes the current patrol point |
| HitscanEnemy.EnemyController.HandleChase | Assets/scripts/EnemyController.cs:111-116 | with an agent and a player, the agent is not stopped and heads for the player |
| HitscanEnemy.EnemyController.HandleAttack | Assets/scripts/EnemyController.cs:119-136 | the agent is stopped; with a player, the cooldown runs as `Cooldown.Step` says and a shot does `HitscanEnemy.RayDamage`; without one, the timer is untouched |
| HitscanEnemy.EnemyController.FireRay | Assets/scripts/EnemyController.cs:139-195 | the shot's damage call is `HitscanEnemy.RayDamage` |
| BulletEnemy.EnemyController.constructor | enemies/Assets/scripts/EnemyController.cs:11-33 | the settings are stored; the enemy starts Patrolling at index 0 with a zero timer |
| BulletEnemy.EnemyController.Start | enemies/Assets/scripts/EnemyController.cs:35-49 | the agent is looked up; with patrol points, the enemy patrols and is sent to its current point; without them, it chases |
| BulletEnemy.EnemyController.Update | enemies/Assets/scripts/EnemyController.cs:51-90 | like the hit-scan enemy: the state is `EnemyAI.SelectState`, patrol and chase set the destinations, Attacking alone runs `Cooldown.Step`; a shot spawns a bullet only when both the fire point and the prefab are set |
| BulletEnemy.EnemyController.HandlePatrol | enemies/Assets/scripts/EnemyController.cs:93-107 | with an agent and patrol points, the agent is not stopped, and on arrival the index advances cyclically and becomes the new destination |
| BulletEnemy.EnemyController.SetNextPatrolDestination | enemies/Assets/scripts/EnemyController.cs:109-115 | with an agent and patrol points, the destination becomes the current patrol point |
| BulletEnemy.EnemyController.HandleChase | enemies/Assets/scripts/EnemyController.cs:118-124 | with an agent and a player, the agent is not stopped and heads for the player |
| BulletEnemy.EnemyController.HandleAttack | enemies/Assets/scripts/EnemyController.cs:127-149 | the agent is stopped; with a player, the cooldown runs as `Cooldown.Step` says, and a shot spawns a bullet iff the fire point and the prefab are set |
| BulletEnemy.EnemyController.Shoot | enemies/Assets/scripts/EnemyController.cs:151-156 | a bullet is spawned iff the fire point and the bullet prefab are both set |
| Turret.GateOf | Assets/scripts/TurretShooter.cs:29-49 | the turret stops at the first failing gate: a missing reference iff a reference is unset; out of range iff the references are set and the player is beyond the vision range; engaged iff every reference is set, the player is in range, the flat squared distance is at least 0.0001 and the angle is at most half the view angle |
| Turret.WiderTurretStillEngages | Assets/scripts/TurretShooter.cs:38-49 | a turret with a range and a view angle no smaller than another's engages wherever the other does |
| Turret.ShotDamage | Assets/scripts/TurretShooter.cs:93-101 | the shot damages the player's health iff the hit is Player-tagged and has one, by the turret's damage; anything else takes no damage |
| Turret.TurretShooter.constructor | Assets/scripts/TurretShooter.cs:16-27 | the settings are stored and the fire timer starts at 0 |
| Turret.TurretShooter.Update | Assets/scripts/TurretShooter.cs:29-62 | until every gate passes, nothing fires and the timer is untouched; once they pass, the timer follows `Cooldown.Step`, and a shot's damage is `Turret.ShotDamage` |
| Turret.TurretShooter.FireRaycast | Assets/scripts/TurretShooter.cs:64-106 | the shot's damage call is `Turret.ShotDamage` |
| Umbrella.Step | Assets/scripts/UmbrellaController.cs:30-56 | Q toggles the umbrella open; a shot fires iff the mouse is held, the umbrella is closed and the time has reached the next fire time; a shot moves the next fire time to now + 1/fireRate, and the next fire time never decreases; a mouse release always ends shooting; otherwise shooting starts when the mouse is held with the umbrella closed, and persists |
| Umbrella.TogglingTwiceRestores | Assets/scripts/UmbrellaController.cs:32-36 | two frames with Q pressed restore the umbrella's open state |
| Umbrella.ShotsAreSpaced | Assets/scripts/UmbrellaController.cs:38-44 | over any run of frames, no shot comes before the initial next fire time, and successive shots are at least 1/fireRate seconds apart |
| Umbrella.ShotDamage | Assets/scripts/UmbrellaController.cs:58-72 | a shot damages the hit object iff it has a `Target`, by the umbrella's damage |
| Umbrella.UmbrellaController.constructor | Assets/scripts/UmbrellaController.cs:8-14 | the umbrella starts closed, not shooting, with next fire time 0 |
| Umbrella.UmbrellaController.Update | Assets/scripts/UmbrellaController.cs:30-56 | the three fields and the fired flag follow `Umbrella.Step`; the shield object is active iff the umbrella is open; the animator's "shooting" flag equals the field; its "open" flag is updated only on a Q press; a shot's damage is `Umbrella.ShotDamage` |
| Umbrella.UmbrellaController.Shoot | Assets/scripts/UmbrellaController.cs:58-72 | the shot's damage call is `Umbrella.ShotDamage` |
| Bullet.Resolve | Assets/scripts/EnemyBullet.cs:28-47 | the bullet is destroyed iff it hit something not tagged Enemy; it damages iff it hit a Player-tagged collider with player health, by the bullet's damage; a damaging hit always destroys the bullet |
| Bullet.NextPosition | Assets/scripts/EnemyBullet.cs:22 | the next position is the current one advanced by speed·dt along the forward direction, so a zero step or a zero direction leaves it where it is |
| Bullet.PassThroughEnemies | Assets/scripts/EnemyBullet.cs:38-53 | a frame that hits nothing or only an enemy neither damages nor destroys the bullet |
| Bullet.EnemyBullet.constructor | Assets/scripts/EnemyBullet.cs:5-15 | the bullet starts alive at its spawn position, which is also its last position |
| Bullet.EnemyBullet.Update | Assets/scripts/EnemyBullet.cs:17-54 | the damage and destruction follow `Bullet.Resolve`; a destroyed bullet stays where it was; a surviving one moves by speed·dt along its forward direction and records the new position as its last |
| Dummy.GroundBounds | Assets/scripts/AutoMoveDummy.cs:15-32 | the bounds `Start` ends with on a fresh dummy (see `Dummy.AutoMoveDummyInBounds.Start`): the ground renderer's bounds when there is a ground with a renderer, and all zero when the ground or its renderer is missing |
| Dummy.NoGroundPinsToOrigin | Assets/scripts/AutoMoveDummy.cs:13-32 | with all-zero bounds, the only allowed positions are those with x = z = 0 |
| Dummy.Picked | Assets/scripts/AutoMoveDummy.cs:78-84 | a freshly picked direction is horizontal |
| Dummy.RetimedRestartsOrAdvances | Assets/scripts/AutoMoveDummy.cs:39-45 | the first half of a frame restarts the timer with a fresh pick exactly when the accumulated time reaches the interval, otherwise advances it and keeps the direction, and never moves the dummy |
| Dummy.MovedStaysOrEntersBounds | Assets/scripts/AutoMoveDummy.cs:48-58 | the second half keeps the timer; the dummy stays put or ends inside the bounds; a dummy left outside the bounds has reversed; the direction is kept or reversed, so a horizontal one stays horizontal |
| Dummy.Step | Assets/scripts/AutoMoveDummy.cs:37-67 | after a frame the timer is 0 or below the interval, and it is 0 exactly when the accumulated time reached the interval (or is 0); the dummy either stays put or moves to a position inside the bounds; a dummy inside the bounds stays inside; a horizontal direction stays horizontal |
| Dummy.BlockedStepReverses | Assets/scripts/AutoMoveDummy.cs:39-55 | a step whose candidate position would leave the bounds keeps the position and reverses the direction, also on a frame where the timer ran out and the reversed direction is the one just picked |
| Dummy.StaysInBounds | Assets/scripts/AutoMoveDummy.cs:37-67 | over any run of frames, a dummy that starts inside the bounds facing horizontally stays inside and keeps facing horizontally |
| Dummy.AutoMoveDummyInBounds.constructor | Assets/scripts/AutoMoveDummy.cs:5-13 | the timer starts at 0, the direction at zero and the bounds at zero |
| Dummy.AutoMoveDummyInBounds.Start | Assets/scripts/AutoMoveDummy.cs:15-35 | when a ground with a renderer is found, its bounds are stored, otherwise the bounds are left alone, so a freshly constructed dummy ends with `Dummy.GroundBounds` of what was found; then a direction is picked |
| Dummy.AutoMoveDummyInBounds.Update | Assets/scripts/AutoMoveDummy.cs:37-67 | the timer, direction and position follow `Dummy.Step`, and the bounds do not change |
| Dummy.AutoMoveDummyInBounds.PickNewDirection | Assets/scripts/AutoMoveDummy.cs:70-85 | a reverse negates the direction; otherwise the picked direction is taken; either way it stays horizontal |
| MeshColliders.Cleared | Assets/Editor/FixMeshColliders.cs:22 | clearing removes the fast-midphase flag, keeps every other bit, and leaves a word without the flag unchanged |
| MeshColliders.ClearAll | Assets/Editor/FixMeshColliders.cs:16-27 | the pass keeps the number of colliders and clears each one's flag position by position |
| MeshColliders.CountSet | Assets/Editor/FixMeshColliders.cs:16-27 | the count is at most the number of colliders; `MeshColliders.MarkedExactlyTheFlagged` shows it is the number marked dirty |
| MeshColliders.Marked | Assets/Editor/FixMeshColliders.cs:19-26 | at most one collider is marked dirty per collider; `MeshColliders.MarkedExactlyTheFlagged` shows they are exactly the flagged ones, in order |
| MeshColliders.MarkedExactlyTheFlagged | Assets/Editor/FixMeshColliders.cs:16-27 | exactly the colliders that had the flag are marked dirty, each once and in increasing order, and their number is the count |
| MeshColliders.SecondPassChangesNothing | Assets/Editor/FixMeshColliders.cs:16-27 | running the command again changes nothing, counts zero and marks nothing |
| MeshColliders.FixColliders | Assets/Editor/FixMeshColliders.cs:7-30 | every collider's flags are cleared in place; the count is the number that had the flag; the dirty list is exactly those colliders, in order |

## Left out

- Navigation, physics and rendering are left out, because they are the engine's work. Their outcomes are inputs: `NavMeshAgent` path finding, `Physics.Raycast` (range, layer mask, trigger handling), `Vector3.Distance`, `Vector3.Angle`, `sqrMagnitude`.
- Rotations are left out: `Quaternion.LookRotation` and `Quaternion.Slerp`, i.e. the turret turning its gun head, an enemy facing the player, and the dummy turning. Some of them feed back into later frames: the turret's gate reads `gunHead.forward`, which its own turning changed on earlier frames, and a shot's ray starts along `firePoint.forward`, which follows the shooter's facing. In the model that feedback arrives only through each frame's `angle` and `hit` inputs, which are left unconstrained, so the model does not capture that the turret turns towards the player or that a shot's direction comes from the facing. No proved property depends on either.
- Effects are left out because the scripts read nothing back from them: particles, audio, animator parameters other than the two recorded flags, `Debug.Log`, `Debug.DrawRay`.
- Serialized references used without a null test are assumed to be set: the umbrella's `muzzleFlash`, `fireSound`, `animator`, `shield` and `fpsCamera`, and the manager's `winScreen`, `loseScreen` and `enemyProgressText`. If one of them is unset, the engine throws at that call and the rest of the method does not run; for instance, an unset flash stops the umbrella's shot before its raycast, and an unset screen leaves the game ended with the time scale unchanged. The model does not capture that.
- `Instantiate` is left out: the bullet enemy's spawn is only reported as a returned flag.
- Destruction is left out as engine behaviour: `Destroy`, its deferral to the end of the frame, and the bullet's timed self-destruction after `lifeTime`. A destroyed target or bullet is modelled only by what the scripts themselves do on the hit.
- The `GameManager.Instance` singleton is left out: each player and target holds an explicit reference to the one manager.
- The win screen, the lose screen and the text object are recorded values, not scene objects.
- `Time.timeScale` is recorded, but its effect on later frame times is not modelled.
- The UmbrellaController's `Start` is left out, because it only sets the animator's playback speed from the fire clip.
- The duplicate `Assets/UmbrellaController.cs` is not part of this model. It only duplicates the Q toggle.
- The hit-scan enemy's `Awake` audio setup is left out: it configures the audio source only. Whether the enemy has a navigation agent is a constructor parameter.
- Keyboard, mouse and `Time.time` become booleans and a number in each frame's input.
- `patrolPoints` is modelled only by its length. Null entries in the array, and reassigning `patrolPoints`, `firePoint` or the prefab while the game runs, are not modelled.
- `Random.Range` draws arrive as inputs: the dummy's pick is already normalised, or already replaced by `Vector3.forward` when it is too short. The 0.1 magnitude test and the normalisation are not modelled.
- `IDamageable` is only an interface in the code. The model records that it is called and with what amount.
- The command's final log line, which is its only output of the count, is left out; the count is returned instead.
- `FindObjectsByType` is modelled as the array it returns. `EditorUtility.SetDirty` is modelled as the ordered list of collider indices it was called on.
- MeshColliders.UseFastMidphase: the value 16 is the engine's definition of the flag; the code only names it.
- Player.PlayerHealth.constructor: health starts at the initialiser value 100. The field is public, so a value set in the editor inspector would replace it; that is not modelled. `Player.PlayerHealth.TakeDamage` and the lemmas over `HealthAfterHits` hold for any starting health.
- Targets.Target.Awake: health starts at the initialiser value 50. The field is public, so a value set in the editor inspector would replace it; that is not modelled. `Targets.NoReportWhileAlive` and `Targets.EveryLethalHitReports` hold for any starting health.
- Player.PlayerHealth.TakeDamage: health is an unbounded integer, so the 32-bit wrap-around of `health -= damage` for extreme damage values is not modelled.
- Game.Register: the 32-bit wrap-around of `totalEnemies++` is not modelled; the counts are unbounded naturals.
- Game.Defeat: the 32-bit wrap-around of `defeatedEnemies++` is not modelled; the counts are unbounded naturals.
- Targets.Target.TakeDamage: single-precision rounding of `health -= damage` is not modelled; health is a real number.
- Turret.GateOf: the float constant `0.0001f` and the `maxViewAngle * 0.5f` product are taken as exact reals.
- Umbrella.UmbrellaController.Update, Umbrella.UmbrellaController.constructor, Umbrella.Step, Umbrella.ShotTimes, Umbrella.ShotsAreSpaced, Umbrella.TogglingTwiceRestores: all of these require a positive `fireRate`. With 0, the float division in the code would produce infinity, which the model does not represent.
- Bullet.EnemyBullet.Update: it requires a bullet that has not been destroyed. The engine stops running `Update` on a destroyed object.
