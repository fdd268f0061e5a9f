# Space shooter simulation, modelled in Dafny

This project models the game logic of `js/space_shooter_v2.js`: a vertical
arcade shooter drawn on a canvas. The player's craft moves left and right
along the bottom and fires bullets upwards. Enemies of three kinds
(normal, tanker, speedster) fall from the top and shoot back. Items fall
that give score or heal. Once the score reaches 100 a boss appears. It
enters from above, then sweeps sideways. It fires homing bullet bursts and
charges a laser beam. Killing it advances the stage. Killing the boss of
the last stage wins the game.

The game's state is one object, `Simulation.SimulationState`. It holds the
player, the entity lists, the score, the stage index, the boss, the laser
latch and beam, the game-over latch and the repeating timers. Each method
is one function of the game, or one firing of one of its timers. Each
method changes only the fields the original changes. The canvas width and
height are the constants `W` and `H`.

The per-frame passes over the lists are loops over `seq` fields. Each loop
is proved against a function on values in module `Passes`:

- effects fade;
- bullets rise;
- items fall and may be collected;
- enemies advance, ram the player and take bullets;
- enemy bullets fly and hurt the player.

Lemmas about those functions state the properties the game relies on:

- a bullet's damage counts once across all targets;
- a caught item is never kept;
- health stays within bounds;
- the laser hurts the player at most once.

The modules follow the structure of the game:

| module | contents |
|---|---|
| `Geometry` | the overlap test |
| `Entities` | the records and the list filter |
| `Difficulty` | the stage table and the spawner arithmetic |
| `Health` | damage and healing |
| `Combat` | player bullets against one target |
| `BossFight` | the boss object, its motion, its attacks and the beam |
| `Passes` | the per-frame list passes as functions |
| `Simulation` | the state object |

`Wrappers` holds `Option`.

### Behaviour of the code as written

The model reproduces these behaviours of the code, and its contracts state them:

- **A boss kill stops the frame loop.** The frame loop re-arms itself with
  `requestAnimationFrame` as its last step (line 813). The kill is followed
  by a `return` (line 687), which leaves the frame before that step, so no
  frame runs again. A restart calls only `resetGame`, which does not
  re-arm the loop either. The repeating timers go on firing, so enemies,
  enemy bullets and hp items keep being added and never move. The state
  models the pending frame as `frameScheduled`: `Update` requires it and
  clears it exactly in a frame where the boss is destroyed, and `ResetGame`
  leaves it as it was.
- **The score stays above the boss score.** Killing the boss adds one
  point, so `BossDestroyed` ensures `score > BossSpawnScore`.
  `CheckDifficulty` ensures a boss is created exactly when the score has
  reached 100 and none is up, so it would create one at once if called
  after a kill; only the stopped frame loop calls it.
- **The stage index reaches the table length.** Killing the boss of the
  last stage raises the index to the table length (5) and ends the game as
  a win. The state invariant `ProgressOk` therefore allows
  `currentStageIndex == |Stages|`, but only once `gameOver` holds.
- **A boss kill ends the frame.** The same `return` skips the laser beam,
  the enemy pass, the cleanup and the enemy bullets of that frame. `Update`
  ensures the enemies, the enemy bullets and the beam are unchanged in such
  a frame.
- **The beam follows the boss object that charged it.** `LaserBeam.source`
  is that boss object, and `UpdateLaser` reads its `x` rather than the
  current boss's. The boss is dropped only by `BossDestroyed`, after which
  no frame runs, and by `ResetGame`, which also clears the beam; so in every
  frame that runs the two are the same object.
- **Burst shots have no null check.** A scheduled burst shot reads the boss
  without checking that one is up. With no boss, the callback fails before
  it adds a bullet, so `BurstShotFired` leaves the bullets unchanged.
- **The score path only leaves the first stage.** It raises the stage only
  when the next row's threshold is below the boss score. Only the second
  row (threshold 50) qualifies, so the score can only move the game from
  stage 0 to stage 1. `ScoreAdvanceOnlyFromFirstStage` proves this.
- **A boss death is 500 particles.** It spawns 50 bursts of 10 particles
  each.
- **A fighting frame moves before it hits.** The boss first moves and
  attacks, then takes the player's bullets at its new position.
- **The player moves left first.** The right-key bounds check uses the
  position after the left move.

## Model

| member | source | states |
|---|---|---|
| Geometry.CollidingSymmetric | js/space_shooter_v2.js:276-281 | the overlap test gives the same answer whichever box comes first |
| Geometry.TouchingIsNoCollision | js/space_shooter_v2.js:276-281 | the comparisons are strict: boxes that only share an edge do not collide |
| Difficulty.Round | js/space_shooter_v2.js:236 | `Math.round`: the result is within half a unit of its argument, rounding halves upwards |
| Difficulty.KindFor | js/space_shooter_v2.js:216-234 | the kind roll gives normal below 0.6, tanker in [0.6, 0.85), speedster from 0.85 (each an if-and-only-if) |
| Difficulty.SpawnHp | js/space_shooter_v2.js:236 | a spawned enemy's hit points are its base hit points times the stage multiplier, rounded, and never below the base |
| Difficulty.SpawnHpValues | js/space_shooter_v2.js:28-34 | on the first stage every kind gets exactly its base hit points; later rows give 12, 36, 8, 13 and 75 |
| Difficulty.ShooterIndex | js/space_shooter_v2.js:256 | the shooter picked by a roll in [0, 1) is a valid index into a non-empty enemy list |
| Difficulty.EnemyBulletSpeed | js/space_shooter_v2.js:258-262 | a speedster fires at 1.5 times the stage's bullet speed, any other kind at the stage's speed |
| Difficulty.ScoreAdvanceOnlyFromFirstStage | js/space_shooter_v2.js:605-618 | the score path raises the stage if and only if the stage is the first and the score is at least 50 |
| Health.AfterDamage | js/space_shooter_v2.js:285-307 | after game over, damage changes nothing; otherwise hp drops by the damage, clamped at 0, and the game ends exactly when the damage reaches the remaining hp |
| Health.DamageComposes | js/space_shooter_v2.js:285-307 | two damage calls in a row equal one call with their sum |
| Health.GameOverIsSticky | js/space_shooter_v2.js:286 | once over, any further run of damage calls leaves health and the latch unchanged |
| Health.AfterDamageAll | js/space_shooter_v2.js:285-307 | over a run of damage calls hp stays within bounds and never rises, and the game is over exactly when it already was or hp reached 0 |
| Health.Healed | js/space_shooter_v2.js:310-315 | healing never lowers hp, never exceeds 100, and adds the full amount unless capped |
| Entities.Burst | js/space_shooter_v2.js:318-332 | one explosion is one particle per spark, each at the given point with a full life of 30 and the given colour |
| Entities.Bursts | js/space_shooter_v2.js:358-360 | repeated explosions yield n times as many particles |
| Entities.Filter | js/space_shooter_v2.js:403 | the cleanup filter never lengthens a list, and it keeps only accepted elements |
| Entities.FilterMembers | js/space_shooter_v2.js:736-743 | the filter keeps exactly the accepted elements: each result comes from the input, and each accepted input is in the result |
| Entities.FilterAppend | js/space_shooter_v2.js:736-743 | filtering preserves order: filtering a concatenation filters each part |
| Entities.FilterIdempotent | js/space_shooter_v2.js:761 | a second cleanup with the same test removes nothing |
| Combat.Strike | js/space_shooter_v2.js:676-682 | after a pass over a target, a bullet is used iff it was used or overlaps the target; nothing else about the bullets changes |
| Combat.StrikeConsumes | js/space_shooter_v2.js:676-682 | a pass deals exactly the damage of the bullets it uses up |
| Combat.NoSecondStrike | js/space_shooter_v2.js:677 | a second pass over the same target deals no damage: the hit flag spends each bullet |
| Combat.ConsumedChain | js/space_shooter_v2.js:718-724 | flagging in two steps is flagging once, and the damage used up adds |
| Combat.ConsumedNothing | js/space_shooter_v2.js:718-724 | a list compared with itself has used up no damage |
| Combat.ConsumedBounded | js/space_shooter_v2.js:718-724 | the damage used up never exceeds the damage the unused bullets carried |
| Combat.SingleUseAcrossTargets | js/space_shooter_v2.js:676-724 | over two targets in a row the total damage equals the damage of the bullets used up, and no bullet that struck the first strikes the second |
| BossFight.Boss.constructor | js/space_shooter_v2.js:146-163 | a new boss is centred horizontally at y = -100 with 1000 hp, entering, attack timer 0, moving right, move time 0 |
| BossFight.Boss.Descend | js/space_shooter_v2.js:640-644 | an entering boss moves down one pixel and is fighting exactly when it reaches depth 50; nothing else changes |
| BossFight.Boss.Sweep | js/space_shooter_v2.js:646-654 | a fighting boss's horizontal motion follows `SweepStep` and keeps the boss invariant; its depth, hp, phase and timer are unchanged |
| BossFight.Clamp | js/space_shooter_v2.js:653 | min(max(v, lo), hi) lies in [lo, hi] and leaves a value already inside unchanged |
| BossFight.SweepStep | js/space_shooter_v2.js:648-653 | the boss turns exactly when the move time resets; otherwise it moves one pixel and counts a frame; after a turn it is inside the playfield, and it never leaves it |
| BossFight.SweepTurnsWithinBudget | js/space_shooter_v2.js:650 | a boss that has kept its direction for 120 frames turns on the next |
| BossFight.ChooseAttack | js/space_shooter_v2.js:657-673 | an attack happens iff the timer reached the cooldown of 90 with no charge under way: a burst for a roll below 0.7, a laser otherwise |
| BossFight.BeamUnder | js/space_shooter_v2.js:194-202 | a new beam is centred under the boss, reaches the bottom edge, and has life 30, damage 50 and the boss as source |
| BossFight.BeamStep | js/space_shooter_v2.js:693-707 | one beam frame follows the source, ages one frame and vanishes at life 1; damage passes at most once and zeroes the stored damage |
| BossFight.BeamHitsAtMostOnce | js/space_shooter_v2.js:699-703 | over any run of frames a beam passes at most its damage to the player |
| BossFight.BeamExpires | js/space_shooter_v2.js:698-706 | a beam with life n is gone after n frames |
| Passes.Steer | js/space_shooter_v2.js:630-632 | the player moves at most one speed step; with neither key held it stays put; a key pressed at an edge moves it no further out |
| Passes.ScoreGain | js/space_shooter_v2.js:411-413 | the counting definition that `UpdateItems` is proved against: 10 points for each score item caught this frame, summed in list order (its own contract: a multiple of 10) |
| Passes.HealCount | js/space_shooter_v2.js:414-415 | the counting definition that `UpdateItems` is proved against: one for each hp item caught this frame (its own contract: at most the number of items) |
| Passes.CaughtItemsRemoved | js/space_shooter_v2.js:417-420 | an item caught this frame is never kept by the cleanup |
| Passes.HealComposes | js/space_shooter_v2.js:310-315 | healing twice is healing once by the sum |
| Passes.HarmStep | js/space_shooter_v2.js:747-760 | the damage of one more enemy bullet extends the damage of the bullets before it |
| Passes.Contacts | js/space_shooter_v2.js:713 | the counting definition that `EnemyPass` and the frame's health are stated with: one for each enemy whose moved box touches the player (its own contract: at most one per enemy) |
| Passes.DeathBurstsCount | js/space_shooter_v2.js:737-743 | the cleanup leaves exactly one ten-particle explosion per destroyed enemy |
| Passes.CleanStep | js/space_shooter_v2.js:737-743 | one more enemy through the cleanup is kept iff it survives, and explodes iff it was destroyed |
| Passes.Hit | js/space_shooter_v2.js:710-732 | an enemy moves down by its speed; ramming drops its hp to 0 at most; otherwise bullets can only lower it; it is destroyed iff it was or its hp is used up |
| Passes.Rammed | js/space_shooter_v2.js:711-716 | ramming changes only hp, so the enemy's box is its moved box |
| Passes.Settle | js/space_shooter_v2.js:726-727 | an enemy is flagged destroyed iff its hp is used up; nothing else changes |
| Passes.EnemyPass | js/space_shooter_v2.js:710-733 | the enemy pass keeps one enemy per enemy, only flags bullets, deals exactly the damage of the bullets it uses, has at most one drop per kill, and counts the rammings |
| Passes.EnemyPassStep | js/space_shooter_v2.js:710-733 | one more enemy extends the pass by that enemy's encounter with the bullets still unused, and its contact damage follows the earlier enemies' |
| Passes.EnemyPassSpendsEachBulletOnce | js/space_shooter_v2.js:718-724 | the enemy pass only flips bullets from unused to used, deals exactly the damage of the bullets it flips, each counted once, and so never more than the unused bullets carried: no bullet is spent on two enemies |
| Passes.BossThenEnemyPass | js/space_shooter_v2.js:676-724 | the boss strike followed by the enemy pass only flips bullets to used, the two together deal exactly the damage of the bullets flipped, and never more than the unused bullets carried: no bullet hurts both the boss and an enemy |
| Passes.KillsAreDestroyed | js/space_shooter_v2.js:726-728 | when no enemy entered destroyed, the score the pass adds equals the number of enemies it leaves destroyed |
| Simulation.SimulationState.constructor | js/space_shooter_v2.js:818 | loading the game yields the restart state, which satisfies the invariant, with the first frame scheduled |
| Simulation.SimulationState.ResetGame | js/space_shooter_v2.js:81-111 | a restart from any state empties every list, zeroes score and stage, removes boss and beam, and restores hp, the fire latch and the first stage's timer cadence; a stopped frame loop stays stopped |
| Simulation.SimulationState.InitialIsValid | js/space_shooter_v2.js:81-111 | the restart state satisfies the invariant |
| Simulation.SimulationState.ResetPlayer | js/space_shooter_v2.js:83-85 | the player is back at (180, 550) with full hp and the fire latch released |
| Simulation.SimulationState.ClearLists | js/space_shooter_v2.js:86-90 | every entity list is empty |
| Simulation.SimulationState.ResetProgress | js/space_shooter_v2.js:91-96 | score 0, game on, stage 0, no boss, no charge and no beam |
| Simulation.SimulationState.SetGameIntervals | js/space_shooter_v2.js:574-593 | spawn and shoot timers run at the stage's periods only while no boss is up and a row exists; the time-based advance only below the last stage; otherwise all three are off |
| Simulation.SimulationState.DifficultyTimerFired | js/space_shooter_v2.js:586-590 | a time-based firing raises the stage by one, never past the last row, and re-arms the timers for it |
| Simulation.SimulationState.StopTimers | js/space_shooter_v2.js:298-301 | every repeating timer is off |
| Simulation.SimulationState.TakeDamage | js/space_shooter_v2.js:285-307 | health becomes `AfterDamage` of the old health; ending the game stops every timer; the invariant holds |
| Simulation.SimulationState.HealPlayer | js/space_shooter_v2.js:310-315 | hp becomes `Healed` of the old hp |
| Simulation.SimulationState.Shoot | js/space_shooter_v2.js:134-143 | one unused bullet is appended at the craft's nose with damage 10 and speed 7 |
| Simulation.SimulationState.KeyDown | js/space_shooter_v2.js:119-125 | the fire key shoots once per press, and never after game over; the latch is set exactly when it fires |
| Simulation.SimulationState.KeyUp | js/space_shooter_v2.js:126-131 | releasing the fire key clears the latch, and other keys leave it |
| Simulation.SimulationState.SpawnEffect | js/space_shooter_v2.js:318-332 | the ten particles of one explosion are appended |
| Simulation.SimulationState.SpawnExplosion | js/space_shooter_v2.js:358-360 | n explosions are appended |
| Simulation.SimulationState.SpawnItem | js/space_shooter_v2.js:335-344 | one uncollected 12 x 12 item falling at speed 2 is appended |
| Simulation.SimulationState.SpawnEnemy | js/space_shooter_v2.js:210-249 | nothing while a boss is up; otherwise one enemy at the top edge with the rolled kind and the stage's speed and hit points |
| Simulation.SimulationState.EnemyShoot | js/space_shooter_v2.js:252-272 | nothing with no enemies or a boss up; otherwise one 20-damage bullet from under the picked enemy at its kind's speed |
| Simulation.SimulationState.SpawnHpItem | js/space_shooter_v2.js:347-351 | nothing while a boss is up or after game over; otherwise one hp item at the top edge |
| Simulation.SimulationState.CheckDifficulty | js/space_shooter_v2.js:596-619 | a boss is created iff the score reached 100 with none up, and then the stage timers stop; otherwise the stage rises by one exactly when the score path allows it |
| Simulation.SimulationState.BossDestroyed | js/space_shooter_v2.js:354-383 | one point, 50 yellow explosions at the boss centre, no boss, the next stage; the game is over exactly when that stage is past the table; the score stays above the boss score |
| Simulation.SimulationState.NextStage | js/space_shooter_v2.js:363-382 | the stage rises by one, the game ends exactly when it passes the table, and otherwise the spawn timer runs at the new stage's period |
| Simulation.SimulationState.StartBossLaser | js/space_shooter_v2.js:185-188 | the charging latch is set and one charge completion is scheduled |
| Simulation.SimulationState.LaserChargeFired | js/space_shooter_v2.js:188-206 | the latch clears; with no boss or after game over nothing else changes; otherwise a full beam appears under the current boss and its attack timer restarts |
| Simulation.SimulationState.BurstShotFired | js/space_shooter_v2.js:664-666 | with a boss up, one 30-damage homing bullet is appended under it with the given velocity; with none, the bullets are unchanged |
| Simulation.SimulationState.StrikeTarget | js/space_shooter_v2.js:676-682 | the bullets become `Strike` of the old bullets, their explosions are appended, and the target loses exactly `Damage` |
| Simulation.SimulationState.UpdateEffects | js/space_shooter_v2.js:397-404 | every effect moves and ages one frame, then the expired ones are dropped, in order |
| Simulation.SimulationState.UpdateItems | js/space_shooter_v2.js:407-421 | items fall and caught ones are collected; the score grows by `ScoreGain`, hp heals by 30 per caught hp item, and collected or fallen-off items are dropped |
| Simulation.SimulationState.FallAll | js/space_shooter_v2.js:408-419 | the movement loop of the item pass yields `Fallen` and pays out score and healing |
| Simulation.SimulationState.CollectItem | js/space_shooter_v2.js:409-418 | one item falls; touching the player, it is collected for 10 points or 30 hp |
| Simulation.SimulationState.MovePlayer | js/space_shooter_v2.js:630-632 | the player's x becomes `Steer` of the old x |
| Simulation.SimulationState.MoveBullets | js/space_shooter_v2.js:634-636 | every bullet rises by its speed, and those at or above the top edge are dropped |
| Simulation.SimulationState.BossAttack | js/space_shooter_v2.js:657-673 | the attack timer advances; a burst schedules three shots and restarts the timer; a laser sets the latch and leaves the timer running |
| Simulation.SimulationState.SweepAndAttack | js/space_shooter_v2.js:646-673 | a fighting boss moves as `SweepStep` gives, keeps its depth, hp and phase, and attacks as `Attacked` states: a burst schedules three shots and restarts the timer, a laser charge sets the latch and schedules its completion, otherwise only the timer advances |
| Simulation.SimulationState.HitBoss | js/space_shooter_v2.js:675-682 | the boss loses exactly the damage of the unused bullets overlapping it, which become used |
| Simulation.SimulationState.BossFrame | js/space_shooter_v2.js:639-689 | an entering boss descends one pixel, turns fighting exactly at depth 50 and is never destroyed, with its other fields, the attack state, bullets and effects unchanged; a fighting boss sweeps, attacks and then takes the bullets at its new position, losing exactly their `Damage`, and is destroyed exactly when that uses up its hp; a kill adds one point, advances the stage, appends 50 yellow explosions at the boss centre and ends the game exactly past the last stage; otherwise boss, score and stage stay; beam, enemies, items, enemy bullets, hp and player position never change |
| Simulation.SimulationState.FightFrame | js/space_shooter_v2.js:646-689 | a fighting boss sweeps, attacks, then takes the bullets at its new position and loses exactly their `Damage`; it is destroyed exactly when its hp is used up, and a kill scores, advances the stage and explodes at the boss centre |
| Simulation.SimulationState.StrikeBoss | js/space_shooter_v2.js:675-689 | the bullets become `Strike` of the old ones against the boss where it stands, the boss loses exactly their `Damage`, and it is destroyed exactly when its hp is used up, with one point, the next stage and 50 explosions; otherwise boss, score and stage stay |
| Simulation.SimulationState.UpdateLaser | js/space_shooter_v2.js:692-707 | the new beam is the one `BeamStep` gives for the source boss's current x, and the player's health is `AfterDamage` of the damage that step passes on; with no beam nothing changes |
| Simulation.SimulationState.BeamContact | js/space_shooter_v2.js:699-703 | a live beam touching the player hurts it by the beam's damage and then carries damage 0; otherwise beam and health are unchanged |
| Simulation.SimulationState.RamPlayer | js/space_shooter_v2.js:711-716 | an enemy moves down, and ramming the player costs the player 10 hp and the enemy all its hp |
| Simulation.SimulationState.KillEnemy | js/space_shooter_v2.js:726-732 | an enemy with no hp left is destroyed for one point, and drops a score item when the roll is below 0.3 |
| Simulation.SimulationState.HitEnemy | js/space_shooter_v2.js:711-724 | ramming and the bullet strikes of one enemy, with their effects on bullets, effects and health |
| Simulation.SimulationState.StepEnemy | js/space_shooter_v2.js:710-732 | one enemy of the pass ends up as `Hit` of itself, with score, drops, bullets, effects and health to match |
| Simulation.SimulationState.PassEnemy | js/space_shooter_v2.js:710-733 | a state that holds the pass over the first i enemies holds, after one step, the pass over the first i + 1 |
| Simulation.SimulationState.UpdateEnemies | js/space_shooter_v2.js:710-733 | the whole enemy pass yields exactly `EnemyPass` of the old enemies and bullets, with its effects, drops, kills and contact damage |
| Simulation.SimulationState.CleanUp | js/space_shooter_v2.js:736-743 | used and off-screen bullets are dropped; destroyed and fallen-off enemies are dropped, with one explosion per destroyed enemy |
| Simulation.SimulationState.RemoveEnemies | js/space_shooter_v2.js:737-743 | the enemies become `Filter` by survival, and the death explosions follow in list order |
| Simulation.SimulationState.FlyEnemyBullet | js/space_shooter_v2.js:747-760 | one enemy or boss bullet moves; touching the player, it hurts it by its damage and is used |
| Simulation.SimulationState.UpdateEnemyBullets | js/space_shooter_v2.js:746-761 | bullets fly as in `Flown`, the player takes `HarmTotal` through `AfterDamage`, and used or fallen-off bullets are dropped |
| Simulation.SimulationState.FlyAll | js/space_shooter_v2.js:747-760 | the movement loop of the enemy bullet pass yields `Flown` and deals `HarmTotal` |
| Simulation.SimulationState.StartFrame | js/space_shooter_v2.js:625-636 | a boss appears exactly when the score has reached 100 and none was up, entering at the top centre with full hp and the stage timers stopped; otherwise the stage rises exactly when the score path allows it; then effects fade, items fall and pay out, the player steers and bullets rise, as `Moved` states |
| Simulation.SimulationState.MoveAll | js/space_shooter_v2.js:627-636 | effects age and expired ones drop, items fall, pay 10 points or 30 hp when caught and drop when collected or off-screen, the player's x is `Steer` of the old x, and bullets rise and drop at the top edge (`Moved`) |
| Simulation.SimulationState.EnemyPhase | js/space_shooter_v2.js:692-743 | the beam has its `BeamStep`; the enemy pass runs against the bullets and the player, the destroyed and fallen-off enemies and the used bullets are dropped, and hits, deaths, drops and kills are added (`EnemiesDone`); health takes the beam's damage, then 10 per ramming enemy |
| Simulation.SimulationState.PassAndClean | js/space_shooter_v2.js:710-743 | the enemy pass and its cleanup leave exactly what `EnemiesDone` states, and health takes 10 per ramming enemy |
| Simulation.SimulationState.EndFrame | js/space_shooter_v2.js:692-761 | the end of a frame is the beam, the enemy pass with its cleanup and the enemy bullet pass in that order (`FrameEnded`): health takes the beam's damage, then the rams', then the enemy bullets' `HarmTotal` |
| Simulation.SimulationState.RestOfFrame | js/space_shooter_v2.js:638-761 | the result says whether the boss was destroyed; with no boss up the rest of the frame is `FrameEnded`; a boss kill is `BossKilled` (sweep, attack, the strike that used up its hp, the explosion, the point and the next stage) and leaves enemies, enemy bullets and beam as they were; an entering boss survives; otherwise the enemy bullets fly as the enemy bullet pass gives them |
| Simulation.SimulationState.BossUpFrame | js/space_shooter_v2.js:638-761 | with a boss up, the boss is killed exactly when it is gone afterwards, never while entering; a kill is `BossKilled` and skips the rest of the frame; otherwise the enemy bullets fly as the enemy bullet pass gives them |
| Simulation.SimulationState.Update | js/space_shooter_v2.js:622-813 | a scheduled frame keeps the invariant (hp in [0, 100], hp 0 only after game over, stage within the table, timers at their stage's cadence); after game over nothing changes; score and stage never fall; a boss kill skips the rest of the frame; the next frame is scheduled exactly when no boss was destroyed in this one |
| Simulation.SimulationState.RunFrame | js/space_shooter_v2.js:625-761 | a frame of a running game keeps the invariant, never lowers score or stage, and steers the player; the result says whether the boss was destroyed, and then enemies, enemy bullets and beam are unchanged; otherwise the enemy bullets fly as the enemy bullet pass gives them |

## Left out

- Drawing, the HUD, the DOM, the game-over screen text, images, `console.log` and the star background are left out; they do not affect the game state.
- Real-time scheduling is left out. A repeating timer is a `Timer` value (off, or armed with its period). A firing is a call of the matching method (`SpawnEnemy`, `EnemyShoot`, `SpawnHpItem`, `DifficultyTimerFired`). A pending one-shot callback is a counter (`pendingBurstShots`, `pendingLaserCharges`) that `BurstShotFired` and `LaserChargeFired` consume. The frame callback of `requestAnimationFrame` is the flag `frameScheduled`, and `Update` is its firing. When and in what order the browser runs them is not modelled.
- `Math.random()` is left out. Each roll is a method argument: spawn position, enemy kind, shooter pick, attack choice, one drop roll per enemy, explosion hue and particle velocity and radius.
- Trigonometry is left out. The homing velocity of a burst shot (`bossShoot`) and the particle directions are inputs (`dx`, `dy`, `Spark`); the model does not compute the angle towards the player.
- `FrameInput`: one spark pattern and one random hue serve every small explosion of a frame. The original rolls them per explosion. Which particles appear is therefore less varied; how many, where and when is unchanged.
- The `keys` map is left out. A frame receives "left held" and "right held" as booleans, and either of the source's two keys per direction maps to the same flag.
- Enemy colour is left out; only the drawing uses it.
- Numbers are exact reals, not IEEE doubles. `Math.round` is modelled exactly as rounding halves upwards.
- SpawnEnemy and EnemyShoot require a stage row to exist while no boss is up. The original reads the row without a check, and its timers are never armed once the index passes the table.
- ResetGame does not cancel one-shot callbacks already scheduled, as in the original. A laser charge pending from before a restart still fires afterwards.
- RestOfFrame: with a boss that survives the frame, the contract states the enemy bullets but not the composition of the boss step with the end of the frame; `BossFrame` and `EndFrame` state the two halves.
- BossUpFrame: when the boss survives, the contract states the enemy bullets but not the composition of `BossFrame` with `EndFrame`, for the same reason.
- Update: states the invariant, monotonicity, the player's movement, the skip after a boss kill and the enemy bullets; for the other lists it relies on the stronger contracts of UpdateItems, UpdateEffects, UpdateEnemies, CleanUp and UpdateEnemyBullets rather than restating their composition.
- RunFrame: states the same facts as `Update` for a running game, for the same reason.
- Per-call particle randomness inside the boss explosion is not modelled: all fifty bursts share one spark pattern.
