/** The game's whole mutable state as one object: the player, the entity
    lists, score, stage, boss, laser, game-over latch and the handles of the
    repeating timers. Each method is one function of the game (or one firing
    of one of its timers) and changes only the fields the original changes.
    Canvas width and height are the constants W and H. Random rolls are
    method arguments. */
module Simulation {
  import opened Wrappers
  import opened Geometry
  import opened Entities
  import opened Difficulty
  import opened Health
  import opened Combat
  import opened BossFight
  import opened Passes

  /** A repeating timer handle: cleared, or armed with a period in milliseconds. */
  datatype Timer = Off | Every(period: nat)

  datatype Key = Space | OtherKey

  /** The random rolls and key state one frame consumes. */
  datatype FrameInput = FrameInput(left: bool, right: bool, attackRoll: real,
                                   dropRolls: seq<real>, sparks: seq<Spark>, hue: real)

  class SimulationState {
    const W: real
    const H: real

    var playerX: real
    var playerY: real
    var playerHp: int
    var bullets: seq<Bullet>
    var enemies: seq<Enemy>
    var enemyBullets: seq<EnemyBullet>
    var items: seq<Item>
    var effects: seq<Effect>
    var score: int
    var gameOver: bool
    var currentStageIndex: nat
    var boss: Boss?
    var isLaserCharging: bool
    var laserBeam: Option<LaserBeam>
    var spaceKeyPressed: bool

    var enemySpawnTimer: Timer
    var enemyShootTimer: Timer
    var hpItemSpawnTimer: Timer
    var difficultyTimer: Timer
    /** One-shot burst shots scheduled and not yet fired. */
    var pendingBurstShots: nat
    /** One-shot laser charge completions scheduled and not yet fired. */
    var pendingLaserCharges: nat
    /** Whether the next call of the frame loop is scheduled
        (`requestAnimationFrame`); each frame re-arms it as its last step. */
    var frameScheduled: bool

    function PlayerBox(): Box
      reads this`playerX, this`playerY
    {
      Box(playerX, playerY, PlayerWidth, PlayerHeight)
    }

    /** The stage timers run exactly while no boss is up, the game is on and a stage row exists. */
    predicate StageTimersOn()
      reads this`boss, this`gameOver, this`currentStageIndex
    {
      boss == null && !gameOver && currentStageIndex < |Stages|
    }

    function SpawnCadence(): Timer
      reads this`boss, this`gameOver, this`currentStageIndex
    {
      if StageTimersOn() then Every(Stages[currentStageIndex].spawnInterval) else Off
    }

    function ShootCadence(): Timer
      reads this`boss, this`gameOver, this`currentStageIndex
    {
      if StageTimersOn() then Every(Stages[currentStageIndex].enemyShootInterval) else Off
    }

    function DifficultyCadence(): Timer
      reads this`boss, this`gameOver, this`currentStageIndex
    {
      if StageTimersOn() && currentStageIndex < |Stages| - 1 then Every(DifficultyPeriod) else Off
    }

    function HpItemCadence(): Timer
      reads this`gameOver
    {
      if gameOver then Off else Every(HpItemPeriod)
    }

    /** Hit points stay within bounds, and none left means the game is over. */
    ghost predicate HealthOk()
      reads this`playerHp, this`gameOver
    {
      0 <= playerHp <= MaxHp && (playerHp == 0 ==> gameOver)
    }

    /** The stage index stays within the table (one past it only once the
        game is won) and a boss is up only once the score has reached the boss score. */
    ghost predicate ProgressOk()
      reads this`score, this`gameOver, this`currentStageIndex, this`boss, boss
    {
      && currentStageIndex <= |Stages|
      && (!gameOver ==> currentStageIndex < |Stages|)
      && score >= 0
      && (boss != null ==> score >= BossSpawnScore && currentStageIndex < |Stages| && boss.Valid(W))
    }

    /** Every repeating timer runs at the cadence the state calls for. */
    ghost predicate TimersOk()
      reads this`boss, this`gameOver, this`currentStageIndex,
            this`enemySpawnTimer, this`enemyShootTimer, this`difficultyTimer, this`hpItemSpawnTimer
    {
      && enemySpawnTimer == SpawnCadence()
      && enemyShootTimer == ShootCadence()
      && difficultyTimer == DifficultyCadence()
      && hpItemSpawnTimer == HpItemCadence()
    }

    /** A charging laser has its completion scheduled; a beam is within its life and damage. */
    ghost predicate LaserOk()
      reads this`isLaserCharging, this`pendingLaserCharges, this`laserBeam
    {
      && (isLaserCharging ==> pendingLaserCharges > 0)
      && (laserBeam.Some? ==>
            1 <= laserBeam.value.life <= LaserLife
            && (laserBeam.value.damage == 0 || laserBeam.value.damage == LaserDamage))
    }

    /** The invariant of the state between the steps of a frame. */
    ghost predicate Stable()
      reads this`playerHp, this`gameOver, this`score, this`currentStageIndex, this`boss,
            this`enemySpawnTimer, this`enemyShootTimer, this`difficultyTimer, this`hpItemSpawnTimer,
            this`isLaserCharging, this`pendingLaserCharges, this`laserBeam, boss
    {
      HealthOk() && ProgressOk() && TimersOk() && LaserOk()
    }

    /** The invariant between frames: a boss that is up has hit points left. */
    ghost predicate Valid()
      reads this`playerHp, this`gameOver, this`score, this`currentStageIndex, this`boss,
            this`enemySpawnTimer, this`enemyShootTimer, this`difficultyTimer, this`hpItemSpawnTimer,
            this`isLaserCharging, this`pendingLaserCharges, this`laserBeam, boss
    {
      Stable() && (boss != null ==> boss.hp > 0)
    }

    /** The state a restart produces. */
    ghost predicate Initial()
      reads this
    {
      && playerX == PlayerStartX && playerY == PlayerStartY && playerHp == MaxHp
      && bullets == [] && enemies == [] && enemyBullets == [] && items == [] && effects == []
      && score == 0 && !gameOver && currentStageIndex == 0 && boss == null
      && !isLaserCharging && laserBeam == None && !spaceKeyPressed
      && enemySpawnTimer == Every(1000) && enemyShootTimer == Every(1200)
      && hpItemSpawnTimer == Every(HpItemPeriod) && difficultyTimer == Every(DifficultyPeriod)
    }

    /** Loading the game: the state on a canvas of `w` by `h`, then a restart. */
    constructor (w: real, h: real)
      ensures W == w && H == h
      ensures Valid() && Initial()
      ensures pendingBurstShots == 0 && pendingLaserCharges == 0
      ensures frameScheduled
    {
      W := w;
      H := h;
      pendingBurstShots := 0;
      pendingLaserCharges := 0;
      frameScheduled := true;
      new;
      ResetGame();
    }

    /** Restart: every list empty, score and stage zero, no boss or beam, full
        health, the timers at the first stage's cadence. One-shot callbacks
        already scheduled are not cancelled, and a frame loop that has stopped
        is not restarted. */
    method ResetGame()
      modifies this
      ensures Valid() && Initial()
      ensures pendingBurstShots == old(pendingBurstShots)
      ensures pendingLaserCharges == old(pendingLaserCharges)
      ensures frameScheduled == old(frameScheduled)
    {
      ResetPlayer();
      ClearLists();
      ResetProgress();
      SetGameIntervals();
      hpItemSpawnTimer := Every(HpItemPeriod);
      InitialIsValid();
    }

    /** The restart state satisfies the invariant. */
    lemma InitialIsValid()
      requires Initial()
      ensures Valid()
    {
      assert Stages[0].spawnInterval == 1000 && Stages[0].enemyShootInterval == 1200;
    }

    /** Player part of a restart. */
    method ResetPlayer()
      modifies this`playerX, this`playerY, this`playerHp, this`spaceKeyPressed
      ensures playerX == PlayerStartX && playerY == PlayerStartY && playerHp == MaxHp && !spaceKeyPressed
    {
      playerX := PlayerStartX;
      playerY := PlayerStartY;
      playerHp := MaxHp;
      spaceKeyPressed := false;
    }

    /** List part of a restart. */
    method ClearLists()
      modifies this`bullets, this`enemies, this`enemyBullets, this`items, this`effects
      ensures bullets == [] && enemies == [] && enemyBullets == [] && items == [] && effects == []
    {
      bullets := [];
      enemies := [];
      enemyBullets := [];
      items := [];
      effects := [];
    }

    /** Progress part of a restart: score, stage, boss, beam. */
    method ResetProgress()
      modifies this`score, this`gameOver, this`currentStageIndex, this`boss, this`isLaserCharging, this`laserBeam
      ensures score == 0 && !gameOver && currentStageIndex == 0 && boss == null
      ensures !isLaserCharging && laserBeam == None
    {
      score := 0;
      gameOver := false;
      currentStageIndex := 0;
      boss := null;
      isLaserCharging := false;
      laserBeam := None;
    }

    /** Re-arm the stage timers for the current stage: spawn and shoot only
        while no boss is up and a stage row exists, the time-based advance only
        below the last stage. */
    method SetGameIntervals()
      requires currentStageIndex <= |Stages|
      modifies this`enemySpawnTimer, this`enemyShootTimer, this`difficultyTimer
      ensures enemySpawnTimer ==
        (if boss == null && currentStageIndex < |Stages| then Every(Stages[currentStageIndex].spawnInterval) else Off)
      ensures enemyShootTimer ==
        (if boss == null && currentStageIndex < |Stages| then Every(Stages[currentStageIndex].enemyShootInterval) else Off)
      ensures difficultyTimer ==
        (if boss == null && currentStageIndex < |Stages| - 1 then Every(DifficultyPeriod) else Off)
    {
      enemySpawnTimer := Off;
      enemyShootTimer := Off;
      difficultyTimer := Off;
      if boss == null && currentStageIndex < |Stages| {
        enemySpawnTimer := Every(Stages[currentStageIndex].spawnInterval);
        enemyShootTimer := Every(Stages[currentStageIndex].enemyShootInterval);
        if currentStageIndex < |Stages| - 1 {
          difficultyTimer := Every(DifficultyPeriod);
        }
      }
    }

    /** Stop every repeating timer. */
    method StopTimers()
      modifies this`enemySpawnTimer, this`enemyShootTimer, this`hpItemSpawnTimer, this`difficultyTimer
      ensures enemySpawnTimer == Off && enemyShootTimer == Off
      ensures hpItemSpawnTimer == Off && difficultyTimer == Off
    {
      enemySpawnTimer := Off;
      enemyShootTimer := Off;
      hpItemSpawnTimer := Off;
      difficultyTimer := Off;
    }

    /** The player takes `damage`: nothing once the game is over; otherwise hp
        drops, clamped at zero, and reaching zero ends the game and stops the timers. */
    method TakeDamage(damage: nat)
      requires Valid()
      modifies this`playerHp, this`gameOver, this`enemySpawnTimer, this`enemyShootTimer,
               this`hpItemSpawnTimer, this`difficultyTimer
      ensures Valid()
      ensures Health(playerHp, gameOver) == AfterDamage(Health(old(playerHp), old(gameOver)), damage)
      ensures gameOver && !old(gameOver) ==>
        enemySpawnTimer == Off && enemyShootTimer == Off && hpItemSpawnTimer == Off && difficultyTimer == Off
    {
      if gameOver {
        return;
      }
      playerHp := playerHp - damage;
      if playerHp < 0 {
        playerHp := 0;
      }
      if playerHp <= 0 {
        gameOver := true;
        StopTimers();
      }
    }

    /** The player heals by `amount`, capped at the maximum. */
    method HealPlayer(amount: nat)
      requires Valid()
      modifies this`playerHp
      ensures Valid()
      ensures playerHp == Healed(old(playerHp), amount)
    {
      playerHp := playerHp + amount;
      if playerHp > MaxHp {
        playerHp := MaxHp;
      }
    }

    /** Fire one player bullet from the nose of the craft. */
    method Shoot()
      modifies this`bullets
      ensures bullets == old(bullets) + [Bullet(playerX + PlayerWidth / 2.0 - 2.0, playerY,
        PlayerBulletWidth, PlayerBulletHeight, PlayerBulletSpeed, PlayerBulletDamage, false)]
    {
      bullets := bullets + [Bullet(playerX + PlayerWidth / 2.0 - 2.0, playerY,
        PlayerBulletWidth, PlayerBulletHeight, PlayerBulletSpeed, PlayerBulletDamage, false)];
    }

    /** Key pressed: the fire key shoots once per press, and not after game over. */
    method KeyDown(key: Key)
      modifies this`bullets, this`spaceKeyPressed
      ensures var fires := key == Space && !old(spaceKeyPressed) && !gameOver;
        && bullets == old(bullets) + (if fires then [Bullet(playerX + PlayerWidth / 2.0 - 2.0, playerY,
             PlayerBulletWidth, PlayerBulletHeight, PlayerBulletSpeed, PlayerBulletDamage, false)] else [])
        && spaceKeyPressed == (old(spaceKeyPressed) || fires)
    {
      if key == Space && !spaceKeyPressed && !gameOver {
        Shoot();
        spaceKeyPressed := true;
      }
    }

    /** Key released: releasing the fire key re-enables it. */
    method KeyUp(key: Key)
      modifies this`spaceKeyPressed
      ensures spaceKeyPressed == (old(spaceKeyPressed) && key != Space)
    {
      if key == Space {
        spaceKeyPressed := false;
      }
    }

    /** Append one burst of particles at (x, y). */
    method SpawnEffect(x: real, y: real, color: Color, sparks: seq<Spark>)
      requires |sparks| == ParticlesPerBurst
      modifies this`effects
      ensures effects == old(effects) + Burst(x, y, color, sparks)
    {
      var burst := Burst(x, y, color, sparks);
      for i := 0 to ParticlesPerBurst
        invariant effects == old(effects) + burst[..i]
      {
        effects := effects + [Effect(x, y, sparks[i].dx, sparks[i].dy, sparks[i].radius, EffectLife, color)];
        assert burst[..i + 1] == burst[..i] + [burst[i]];
      }
      assert burst[..ParticlesPerBurst] == burst;
    }

    /** Append `n` bursts of particles at (x, y). */
    method SpawnExplosion(x: real, y: real, color: Color, sparks: seq<Spark>, n: nat)
      requires |sparks| == ParticlesPerBurst
      modifies this`effects
      ensures effects == old(effects) + Bursts(n, Burst(x, y, color, sparks))
    {
      for i := 0 to n
        invariant effects == old(effects) + Bursts(i, Burst(x, y, color, sparks))
        modifies this`effects
      {
        SpawnEffect(x, y, color, sparks);
      }
    }

    /** Append one falling item at (x, y). */
    method SpawnItem(x: real, y: real, kind: ItemKind)
      modifies this`items
      ensures items == old(items) + [Item(x, y, ItemSize, ItemSize, ItemSpeed, kind, false)]
    {
      items := items + [Item(x, y, ItemSize, ItemSize, ItemSpeed, kind, false)];
    }

    /** The spawn-timer callback: nothing while a boss is up; otherwise one
        enemy at the top edge, its kind chosen by `kindRoll`, its hit points
        scaled by the stage. */
    method SpawnEnemy(xRoll: real, kindRoll: real)
      requires boss != null || currentStageIndex < |Stages|
      modifies this`enemies
      ensures boss != null ==> enemies == old(enemies)
      ensures boss == null ==>
        var k := KindFor(kindRoll);
        var s := Stages[currentStageIndex];
        && |enemies| == |old(enemies)| + 1 && enemies[..|old(enemies)|] == old(enemies)
        && enemies[|old(enemies)|] == Enemy(xRoll * (W - EnemyWidth), 0.0, EnemyWidth, EnemyHeight,
             2.0 * s.enemySpeedMultiplier * KindSpeedMultiplier(k), SpawnHp(k, s), SpawnHp(k, s), k, false)
    {
      if boss != null {
        return;
      }
      var stage := Stages[currentStageIndex];
      var x := xRoll * (W - EnemyWidth);
      var kind := KindFor(kindRoll);
      var finalHp := SpawnHp(kind, stage);
      enemies := enemies + [Enemy(x, 0.0, EnemyWidth, EnemyHeight,
        2.0 * stage.enemySpeedMultiplier * KindSpeedMultiplier(kind), finalHp, finalHp, kind, false)];
    }

    /** The shoot-timer callback: nothing with no enemies or while a boss is
        up; otherwise the enemy picked by `pickRoll` fires one bullet downwards. */
    method EnemyShoot(pickRoll: real)
      requires 0.0 <= pickRoll < 1.0
      requires |enemies| == 0 || boss != null || currentStageIndex < |Stages|
      modifies this`enemyBullets
      ensures |enemies| == 0 || boss != null ==> enemyBullets == old(enemyBullets)
      ensures |enemies| > 0 && boss == null ==>
        var e := enemies[ShooterIndex(pickRoll, |enemies|)];
        enemyBullets == old(enemyBullets) + [EnemyBullet(e.x + e.width / 2.0 - 2.0, e.y + e.height,
          EnemyBulletWidth, EnemyBulletHeight, EnemyBulletSpeed(e.kind, Stages[currentStageIndex]),
          0.0, 0.0, EnemyBulletDamage, false, false)]
    {
      if |enemies| == 0 || boss != null {
        return;
      }
      var stage := Stages[currentStageIndex];
      var shooter := enemies[ShooterIndex(pickRoll, |enemies|)];
      var speed := stage.enemyBulletSpeed;
      if shooter.kind == Speedster {
        speed := stage.enemyBulletSpeed * 1.5;
      }
      enemyBullets := enemyBullets + [EnemyBullet(shooter.x + shooter.width / 2.0 - 2.0,
        shooter.y + shooter.height, EnemyBulletWidth, EnemyBulletHeight, speed,
        0.0, 0.0, EnemyBulletDamage, false, false)];
    }

    /** The hp-item timer callback: nothing while a boss is up or after game
        over; otherwise one hp item at the top edge. */
    method SpawnHpItem(xRoll: real)
      modifies this`items
      ensures boss != null || gameOver ==> items == old(items)
      ensures boss == null && !gameOver ==>
        items == old(items) + [Item(xRoll * (W - ItemSize), 0.0, ItemSize, ItemSize, ItemSpeed, HpItem, false)]
    {
      if boss != null || gameOver {
        return;
      }
      var x := xRoll * (W - ItemSize);
      SpawnItem(x, 0.0, HpItem);
    }

    /** A firing of the time-based difficulty timer: one stage up and the
        timers re-armed for it. It is armed only below the last stage. */
    method DifficultyTimerFired()
      requires Valid() && difficultyTimer.Every?
      modifies this`currentStageIndex, this`enemySpawnTimer, this`enemyShootTimer, this`difficultyTimer
      ensures Valid()
      ensures currentStageIndex == old(currentStageIndex) + 1 <= |Stages| - 1
      ensures enemySpawnTimer == Every(Stages[currentStageIndex].spawnInterval)
      ensures enemyShootTimer == Every(Stages[currentStageIndex].enemyShootInterval)
    {
      currentStageIndex := currentStageIndex + 1;
      SetGameIntervals();
    }

    /** The per-frame difficulty check. A boss appears when the score has
        reached the boss score and none is up, and the stage timers stop;
        otherwise, with no boss up, the score may raise the stage by one. */
    method CheckDifficulty()
      requires Valid() && !gameOver
      modifies this`boss, this`currentStageIndex, this`enemySpawnTimer, this`enemyShootTimer, this`difficultyTimer
      ensures Valid()
      ensures (boss != old(boss)) <==> (score >= BossSpawnScore && old(boss) == null)
      ensures boss != old(boss) ==>
        && fresh(boss) && boss.hp == BossHp && boss.phase == Entrance
        && boss.x == W / 2.0 - BossWidth / 2.0 && boss.y == BossStartY
        && boss.attackTimer == 0 && boss.moveDirection == 1 && boss.moveTime == 0
        && currentStageIndex == old(currentStageIndex)
        && enemySpawnTimer == Off && enemyShootTimer == Off && difficultyTimer == Off
      ensures currentStageIndex ==
        (if old(boss) == null && score < BossSpawnScore && ScoreAdvance(old(currentStageIndex), score)
         then old(currentStageIndex) + 1 else old(currentStageIndex))
    {
      if score >= BossSpawnScore && boss == null {
        boss := new Boss(W);
        SetGameIntervals();
        return;
      }
      if boss == null {
        var next := currentStageIndex + 1;
        if next < |Stages| {
          if Stages[next].scoreThreshold < BossSpawnScore {
            if score >= Stages[next].scoreThreshold {
              currentStageIndex := next;
              SetGameIntervals();
            }
          }
        }
      }
    }

    /** The boss dies: one point, fifty yellow bursts at its centre, no boss,
        the next stage; after the last stage the game is over (won) and the
        timers stop, otherwise the stage timers restart. */
    method BossDestroyed(sparks: seq<Spark>)
      requires Stable() && boss != null && !gameOver
      requires |sparks| == ParticlesPerBurst
      modifies this`score, this`effects, this`boss, this`currentStageIndex, this`gameOver,
               this`enemySpawnTimer, this`enemyShootTimer, this`hpItemSpawnTimer, this`difficultyTimer
      ensures Valid()
      ensures score == old(score) + BossKillScore && score > BossSpawnScore
      ensures boss == null
      ensures currentStageIndex == old(currentStageIndex) + 1
      ensures effects == old(effects) + Bursts(BossExplosionBursts,
        Burst(old(boss.x) + BossWidth / 2.0, old(boss.y) + BossHeight / 2.0, Yellow, sparks))
      ensures gameOver <==> currentStageIndex == |Stages|
      ensures !gameOver ==> enemySpawnTimer == Every(Stages[currentStageIndex].spawnInterval)
    {
      score := score + BossKillScore;
      SpawnExplosion(boss.x + BossWidth / 2.0, boss.y + BossHeight / 2.0, Yellow, sparks, BossExplosionBursts);
      boss := null;
      NextStage();
    }

    /** The stage after a boss kill: the next stage's timers, or the end of the
        game once the last stage's boss has fallen. */
    method NextStage()
      requires HealthOk() && LaserOk() && boss == null && !gameOver
      requires currentStageIndex < |Stages| && score >= 0 && hpItemSpawnTimer == HpItemCadence()
      modifies this`currentStageIndex, this`gameOver,
               this`enemySpawnTimer, this`enemyShootTimer, this`hpItemSpawnTimer, this`difficultyTimer
      ensures Valid()
      ensures currentStageIndex == old(currentStageIndex) + 1
      ensures gameOver <==> currentStageIndex == |Stages|
      ensures !gameOver ==> enemySpawnTimer == Every(Stages[currentStageIndex].spawnInterval)
    {
      currentStageIndex := currentStageIndex + 1;
      if currentStageIndex < |Stages| {
        SetGameIntervals();
      } else {
        gameOver := true;
        StopTimers();
      }
    }

    /** Start charging the laser: set the latch and schedule its completion. */
    method StartBossLaser()
      modifies this`isLaserCharging, this`pendingLaserCharges
      ensures isLaserCharging && pendingLaserCharges == old(pendingLaserCharges) + 1
    {
      isLaserCharging := true;
      pendingLaserCharges := pendingLaserCharges + 1;
    }

    /** A laser charge completes: without a boss or after game over the latch
        clears and nothing else happens; otherwise a full beam appears under
        the boss that is up now and its attack timer restarts. */
    method LaserChargeFired()
      requires Valid() && pendingLaserCharges > 0
      modifies this`pendingLaserCharges, this`isLaserCharging, this`laserBeam, boss
      ensures Valid()
      ensures boss != null ==>
        (boss.x == old(boss.x) && boss.y == old(boss.y) && boss.hp == old(boss.hp)
         && boss.phase == old(boss.phase) && boss.moveDirection == old(boss.moveDirection)
         && boss.moveTime == old(boss.moveTime))
      ensures pendingLaserCharges == old(pendingLaserCharges) - 1 && !isLaserCharging
      ensures boss == null || gameOver ==> laserBeam == old(laserBeam)
      ensures boss != null && gameOver ==> boss.attackTimer == old(boss.attackTimer)
      ensures boss != null && !gameOver ==>
        laserBeam == Some(BeamUnder(boss.x, boss.y, H, boss)) && boss.attackTimer == 0
    {
      pendingLaserCharges := pendingLaserCharges - 1;
      if boss == null || gameOver {
        isLaserCharging := false;
        return;
      }
      laserBeam := Some(BeamUnder(boss.x, boss.y, H, boss));
      isLaserCharging := false;
      boss.attackTimer := 0;
    }

    /** One scheduled shot of a burst: a homing bullet from under the boss
        with the given velocity. The callback reads the boss without checking
        it; with no boss up it fails before adding anything. */
    method BurstShotFired(dx: real, dy: real)
      requires pendingBurstShots > 0
      modifies this`pendingBurstShots, this`enemyBullets
      ensures pendingBurstShots == old(pendingBurstShots) - 1
      ensures boss == null ==> enemyBullets == old(enemyBullets)
      ensures boss != null ==>
        enemyBullets == old(enemyBullets) + [EnemyBullet(boss.x + BossWidth / 2.0, boss.y + BossHeight,
          BossBulletSize, BossBulletSize, BossBulletSpeed, dx, dy, BossBulletDamage, true, false)]
    {
      pendingBurstShots := pendingBurstShots - 1;
      if boss == null {
        return;
      }
      enemyBullets := enemyBullets + [EnemyBullet(boss.x + BossWidth / 2.0, boss.y + BossHeight,
        BossBulletSize, BossBulletSize, BossBulletSpeed, dx, dy, BossBulletDamage, true, false)];
    }
  
    /** The player bullets against one target whose hit points are `hp0`:
        each unused bullet that overlaps it deals its damage, is flagged as
        hit and leaves an explosion where it is. Returns the hit points left. */
    method StrikeTarget(t: Box, hp0: int, color: Color, sparks: seq<Spark>) returns (hp: int)
      requires |sparks| == ParticlesPerBurst
      modifies this`bullets, this`effects
      ensures bullets == Strike(t, old(bullets))
      ensures effects == old(effects) + StrikeBursts(t, old(bullets), color, sparks)
      ensures hp == hp0 - Damage(t, old(bullets))
    {
      hp := hp0;
      var i := 0;
      while i < |bullets|
        invariant 0 <= i <= |bullets| == |old(bullets)|
        invariant forall k :: 0 <= k < i ==> bullets[k] == Strike(t, old(bullets))[k]
        invariant forall k :: i <= k < |bullets| ==> bullets[k] == old(bullets)[k]
        invariant effects == old(effects) + StrikeBursts(t, old(bullets)[..i], color, sparks)
        invariant hp == hp0 - Damage(t, old(bullets)[..i])
      {
        var b := bullets[i];
        if Colliding(t, b.Bounds()) && !b.hit {
          hp := hp - b.damage;
          bullets := bullets[i := b.(hit := true)];
          SpawnEffect(b.x, b.y, color, sparks);
        }
        assert old(bullets)[..i + 1][..i] == old(bullets)[..i];
        i := i + 1;
      }
      assert bullets == Strike(t, old(bullets));
      assert old(bullets)[..i] == old(bullets);
    }

    /** Every effect moves by its velocity and ages one frame; expired ones are dropped. */
    method UpdateEffects()
      requires Valid()
      modifies this`effects
      ensures Valid()
      ensures effects == Filter(Faded(old(effects)), Alive)
    {
      var es := effects;
      for i := 0 to |es|
        invariant |es| == |effects|
        invariant forall k :: 0 <= k < i ==> es[k] == Fade(effects[k])
        invariant forall k :: i <= k < |es| ==> es[k] == effects[k]
      {
        es := es[i := Fade(es[i])];
      }
      assert es == Faded(effects);
      effects := Filter(es, Alive);
    }

    /** Every item falls; one touching the player is collected, for ten points
        or thirty hit points; collected items and items below the canvas are dropped. */
    method UpdateItems()
      requires Valid()
      modifies this`items, this`score, this`playerHp
      ensures Valid()
      ensures items == Filter(Fallen(old(items), PlayerBox()), KeepItem(H))
      ensures score == old(score) + ScoreGain(old(items), PlayerBox())
      ensures playerHp == Healed(old(playerHp), HealAmount * HealCount(old(items), PlayerBox()))
    {
      var its := FallAll(items);
      items := Filter(its, KeepItem(H));
    }

    /** The first `i` items of `its0` have fallen (giving `its`), the rest not
        yet, and the collected ones have paid out, from score `score0` and hit
        points `hp0`. */
    ghost predicate FallenThrough(its: seq<Item>, its0: seq<Item>, player: Box, score0: int, hp0: int, i: nat)
      requires i <= |its0| && hp0 <= MaxHp
      reads this`score, this`playerHp
    {
      && |its| == |its0|
      && (forall k :: 0 <= k < i ==> its[k] == Fall(its0[k], player))
      && (forall k :: i <= k < |its| ==> its[k] == its0[k])
      && score == score0 + ScoreGain(its0[..i], player)
      && playerHp == Healed(hp0, HealAmount * HealCount(its0[..i], player))
    }

    /** One iteration of the item pass: item `i` falls. */
    method FallStep(its: seq<Item>, ghost its0: seq<Item>, ghost score0: int, ghost hp0: int, i: nat)
      returns (next: seq<Item>)
      requires Valid() && i < |its0| && hp0 <= MaxHp
      requires FallenThrough(its, its0, PlayerBox(), score0, hp0, i)
      modifies this`score, this`playerHp
      ensures Valid()
      ensures FallenThrough(next, its0, PlayerBox(), score0, hp0, i + 1)
    {
      HealComposes(hp0, HealAmount * HealCount(its0[..i], PlayerBox()),
                   if Caught(its[i], PlayerBox()) && its[i].kind == HpItem then HealAmount else 0);
      assert its0[..i + 1][..i] == its0[..i];
      var it := CollectItem(its[i]);
      next := its[i := it];
    }

    /** The movement loop of the item pass, over the items `its0`. */
    method FallAll(its0: seq<Item>) returns (its: seq<Item>)
      requires Valid()
      modifies this`score, this`playerHp
      ensures Valid()
      ensures its == Fallen(its0, PlayerBox())
      ensures score == old(score) + ScoreGain(its0, PlayerBox())
      ensures playerHp == Healed(old(playerHp), HealAmount * HealCount(its0, PlayerBox()))
    {
      its := its0;
      ghost var score0, hp0 := score, playerHp;
      assert its0[..0] == [];
      for i := 0 to |its0|
        invariant Valid()
        invariant FallenThrough(its, its0, PlayerBox(), score0, hp0, i)
      {
        its := FallStep(its, its0, score0, hp0, i);
      }
      assert its == Fallen(its0, PlayerBox());
      assert its0[..|its0|] == its0;
    }

    /** One item of the item pass: it falls and, touching the player, is collected. */
    method CollectItem(it: Item) returns (moved: Item)
      requires Valid()
      modifies this`score, this`playerHp
      ensures Valid()
      ensures moved == Fall(it, PlayerBox())
      ensures score == old(score) + (if Caught(it, PlayerBox()) && it.kind == ScoreItem then ScoreItemBonus else 0)
      ensures playerHp == Healed(old(playerHp), if Caught(it, PlayerBox()) && it.kind == HpItem then HealAmount else 0)
    {
      moved := it.(y := it.y + it.speed);
      if Colliding(moved.Bounds(), PlayerBox()) {
        if moved.kind == ScoreItem {
          score := score + ScoreItemBonus;
        } else {
          HealPlayer(HealAmount);
        }
        moved := moved.(collected := true);
      }
    }

    /** The player's horizontal movement for the keys held this frame. */
    method MovePlayer(left: bool, right: bool)
      requires Valid()
      modifies this`playerX
      ensures Valid()
      ensures playerX == Steer(old(playerX), left, right, W)
    {
      if left && playerX > 0.0 {
        playerX := playerX - PlayerSpeed;
      }
      if right && playerX + PlayerWidth < W {
        playerX := playerX + PlayerSpeed;
      }
    }

    /** Every player bullet rises; bullets past the top edge are dropped. */
    method MoveBullets()
      requires Valid()
      modifies this`bullets
      ensures Valid()
      ensures bullets == Filter(Raised(old(bullets)), OnScreen)
    {
      var bs := bullets;
      for i := 0 to |bs|
        invariant |bs| == |bullets|
        invariant forall k :: 0 <= k < i ==> bs[k] == Raise(bullets[k])
        invariant forall k :: i <= k < |bs| ==> bs[k] == bullets[k]
      {
        bs := bs[i := Raise(bs[i])];
      }
      assert bs == Raised(bullets);
      bullets := Filter(bs, OnScreen);
    }

    /** The attack step of a fighting frame: the timer advances, and once the
        cooldown has passed with no laser charging, `roll` picks a three-shot
        burst (the timer restarts) or a laser charge. */
    method BossAttack(roll: real)
      requires Valid() && boss != null && boss.phase == Fighting
      modifies boss`attackTimer, this`pendingBurstShots, this`isLaserCharging, this`pendingLaserCharges
      ensures Valid()
      ensures Attacked(boss, roll, old(boss.attackTimer), old(isLaserCharging),
                       old(pendingBurstShots), old(pendingLaserCharges))
    {
      boss.attackTimer := boss.attackTimer + 1;
      if boss.attackTimer >= BossAttackCooldown && !isLaserCharging {
        if roll < BurstChance {
          pendingBurstShots := pendingBurstShots + BurstShots;
          boss.attackTimer := 0;
        } else {
          StartBossLaser();
        }
      }
    }

    /** The outcome of the attack step of boss `b`, from its attack timer
        `timer0`, the laser latch `charging0` and the pending one-shot counts
        `shots0` and `charges0`: a burst schedules three shots and restarts the
        timer, a laser charge sets the latch and schedules its completion, and
        with no attack only the timer advances. */
    ghost predicate Attacked(b: Boss, roll: real, timer0: int, charging0: bool, shots0: nat, charges0: nat)
      reads b, this`pendingBurstShots, this`isLaserCharging, this`pendingLaserCharges
    {
      match ChooseAttack(timer0 + 1, charging0, roll)
      case BurstFire =>
        pendingBurstShots == shots0 + BurstShots && b.attackTimer == 0
        && isLaserCharging == charging0 && pendingLaserCharges == charges0
      case LaserCharge =>
        pendingBurstShots == shots0 && b.attackTimer == timer0 + 1
        && isLaserCharging && pendingLaserCharges == charges0 + 1
      case NoAttack =>
        pendingBurstShots == shots0 && b.attackTimer == timer0 + 1
        && isLaserCharging == charging0 && pendingLaserCharges == charges0
    }

    /** A fighting boss sweeps and may attack. */
    method SweepAndAttack(roll: real)
      requires Valid() && boss != null && boss.phase == Fighting
      modifies boss, this`pendingBurstShots, this`isLaserCharging, this`pendingLaserCharges
      ensures Valid() && boss != null && boss.phase == Fighting && boss.hp == old(boss.hp)
      ensures Motion(boss.x, boss.moveDirection, boss.moveTime)
           == SweepStep(Motion(old(boss.x), old(boss.moveDirection), old(boss.moveTime)), W)
      ensures boss.y == old(boss.y)
      ensures Attacked(boss, roll, old(boss.attackTimer), old(isLaserCharging),
                       old(pendingBurstShots), old(pendingLaserCharges))
    {
      boss.Sweep(W);
      BossAttack(roll);
    }

    /** The player's bullets strike the boss. */
    method HitBoss(color: Color, sparks: seq<Spark>)
      requires Valid() && boss != null && |sparks| == ParticlesPerBurst
      modifies boss`hp, this`bullets, this`effects
      ensures Stable() && boss != null
      ensures bullets == Strike(boss.Bounds(), old(bullets))
      ensures effects == old(effects) + StrikeBursts(boss.Bounds(), old(bullets), color, sparks)
      ensures boss.hp == old(boss.hp) - Damage(boss.Bounds(), old(bullets))
    {
      var hp := StrikeTarget(boss.Bounds(), boss.hp, color, sparks);
      boss.hp := hp;
    }

    /** The boss part of a frame. Entering, the boss descends. Fighting, it
        sweeps, may attack and takes the player's bullets; if that uses up its
        hit points it is destroyed, and the result says the frame ends here. */
    method BossFrame(roll: real, color: Color, sparks: seq<Spark>) returns (destroyed: bool)
      requires Valid() && boss != null && !gameOver && |sparks| == ParticlesPerBurst
      modifies boss, this`boss, this`bullets, this`effects, this`pendingBurstShots, this`isLaserCharging,
               this`pendingLaserCharges, this`score, this`currentStageIndex, this`gameOver,
               this`enemySpawnTimer, this`enemyShootTimer, this`hpItemSpawnTimer, this`difficultyTimer
      ensures Valid()
      ensures destroyed <==> boss == null
      ensures !destroyed ==>
        (boss == old(boss) && score == old(score) && currentStageIndex == old(currentStageIndex) && !gameOver)
      ensures destroyed ==>
        (score == old(score) + BossKillScore && currentStageIndex == old(currentStageIndex) + 1
         && (gameOver <==> currentStageIndex == |Stages|))
      ensures old(boss.phase) == Entrance ==>
        && !destroyed && bullets == old(bullets) && effects == old(effects)
        && boss.y == old(boss.y) + BossSpeed && boss.phase == (if boss.y >= EntranceDepth then Fighting else Entrance)
        && boss.x == old(boss.x) && boss.hp == old(boss.hp) && boss.attackTimer == old(boss.attackTimer)
        && boss.moveDirection == old(boss.moveDirection) && boss.moveTime == old(boss.moveTime)
        && pendingBurstShots == old(pendingBurstShots) && isLaserCharging == old(isLaserCharging)
        && pendingLaserCharges == old(pendingLaserCharges)
      ensures old(boss.phase) == Fighting ==>
        var m := SweepStep(Motion(old(boss.x), old(boss.moveDirection), old(boss.moveTime)), W);
        var t := Box(m.x, old(boss.y), BossWidth, BossHeight);
        && Motion(old(boss).x, old(boss).moveDirection, old(boss).moveTime) == m
        && old(boss).y == old(boss.y) && old(boss).phase == Fighting
        && Attacked(old(boss), roll, old(boss.attackTimer), old(isLaserCharging),
                    old(pendingBurstShots), old(pendingLaserCharges))
        && bullets == Strike(t, old(bullets))
        && old(boss).hp == old(boss.hp) - Damage(t, old(bullets))
        && (destroyed <==> old(boss).hp <= 0)
        && effects == old(effects) + StrikeBursts(t, old(bullets), color, sparks)
             + (if destroyed then Bursts(BossExplosionBursts,
                  Burst(t.x + BossWidth / 2.0, t.y + BossHeight / 2.0, Yellow, sparks)) else [])
      ensures unchanged(this`laserBeam, this`enemies, this`items, this`enemyBullets, this`playerHp,
                        this`playerX, this`playerY)
    {
      if boss.phase == Entrance {
        boss.Descend(W);
        return false;
      }
      destroyed := FightFrame(roll, color, sparks);
    }

    /** The frame of a fighting boss: it sweeps, may attack and takes the
        player's bullets at its new position; with its hit points used up it
        is destroyed. */
    method FightFrame(roll: real, color: Color, sparks: seq<Spark>) returns (destroyed: bool)
      requires Valid() && boss != null && boss.phase == Fighting && !gameOver && |sparks| == ParticlesPerBurst
      modifies boss, this`boss, this`bullets, this`effects, this`pendingBurstShots, this`isLaserCharging,
               this`pendingLaserCharges, this`score, this`currentStageIndex, this`gameOver,
               this`enemySpawnTimer, this`enemyShootTimer, this`hpItemSpawnTimer, this`difficultyTimer
      ensures Valid()
      ensures destroyed <==> boss == null
      ensures !destroyed ==>
        (boss == old(boss) && score == old(score) && currentStageIndex == old(currentStageIndex) && !gameOver)
      ensures destroyed ==>
        (score == old(score) + BossKillScore && currentStageIndex == old(currentStageIndex) + 1
         && (gameOver <==> currentStageIndex == |Stages|))
      ensures var m := SweepStep(Motion(old(boss.x), old(boss.moveDirection), old(boss.moveTime)), W);
        var t := Box(m.x, old(boss.y), BossWidth, BossHeight);
        && Motion(old(boss).x, old(boss).moveDirection, old(boss).moveTime) == m
        && old(boss).y == old(boss.y) && old(boss).phase == Fighting
        && Attacked(old(boss), roll, old(boss.attackTimer), old(isLaserCharging),
                    old(pendingBurstShots), old(pendingLaserCharges))
        && bullets == Strike(t, old(bullets))
        && old(boss).hp == old(boss.hp) - Damage(t, old(bullets))
        && (destroyed <==> old(boss).hp <= 0)
        && effects == old(effects) + StrikeBursts(t, old(bullets), color, sparks)
             + (if destroyed then Bursts(BossExplosionBursts,
                  Burst(t.x + BossWidth / 2.0, t.y + BossHeight / 2.0, Yellow, sparks)) else [])
    {
      SweepAndAttack(roll);
      destroyed := StrikeBoss(color, sparks);
    }

    /** The player's bullets strike the boss where it is now; with its hit
        points used up it is destroyed. */
    method StrikeBoss(color: Color, sparks: seq<Spark>) returns (destroyed: bool)
      requires Valid() && boss != null && !gameOver && |sparks| == ParticlesPerBurst
      modifies boss`hp, this`boss, this`bullets, this`effects, this`score, this`currentStageIndex, this`gameOver,
               this`enemySpawnTimer, this`enemyShootTimer, this`hpItemSpawnTimer, this`difficultyTimer
      ensures Valid()
      ensures destroyed <==> boss == null
      ensures !destroyed ==>
        (boss == old(boss) && score == old(score) && currentStageIndex == old(currentStageIndex) && !gameOver)
      ensures destroyed ==>
        (score == old(score) + BossKillScore && currentStageIndex == old(currentStageIndex) + 1
         && (gameOver <==> currentStageIndex == |Stages|))
      ensures var t := old(boss.Bounds());
        && bullets == Strike(t, old(bullets))
        && old(boss).hp == old(boss.hp) - Damage(t, old(bullets))
        && (destroyed <==> old(boss).hp <= 0)
        && effects == old(effects) + StrikeBursts(t, old(bullets), color, sparks)
             + (if destroyed then Bursts(BossExplosionBursts,
                  Burst(t.x + BossWidth / 2.0, t.y + BossHeight / 2.0, Yellow, sparks)) else [])
    {
      HitBoss(color, sparks);
      if boss.hp <= 0 {
        BossDestroyed(sparks);
        return true;
      }
      return false;
    }

    /** One frame of the beam `beam`, if any, against the player at `player`,
        with its source boss where that boss is now. */
    function BeamOf(beam: Option<LaserBeam>, player: Box): (o: BeamOutcome)
      reads (if beam.Some? then {beam.value.source} else {})`x
      ensures beam.None? ==> o == BeamOutcome(None, 0)
    {
      if beam.None? then BeamOutcome(None, 0)
      else BeamStep(beam.value, beam.value.source.x, player)
    }

    /** One frame of the current beam against the player. */
    function BeamNow(): (o: BeamOutcome)
      reads this`laserBeam, this`playerX, this`playerY,
            (if laserBeam.Some? then {laserBeam.value.source} else {})`x
      ensures o == BeamOf(laserBeam, PlayerBox())
    {
      BeamOf(laserBeam, PlayerBox())
    }

    /** The beam part of a frame: the beam follows the boss that charged it
        (even one already destroyed), ages, hurts the player once on contact
        and is gone when its life runs out. */
    method UpdateLaser()
      requires Valid()
      modifies this`laserBeam, this`playerHp, this`gameOver,
               this`enemySpawnTimer, this`enemyShootTimer, this`hpItemSpawnTimer, this`difficultyTimer
      ensures Valid()
      ensures old(laserBeam).None? ==>
        laserBeam == None && playerHp == old(playerHp) && gameOver == old(gameOver)
      ensures laserBeam == old(BeamNow()).beam
      ensures Health(playerHp, gameOver) == AfterDamage(Health(old(playerHp), old(gameOver)), old(BeamNow()).dealt)
      ensures unchanged(this`playerX, this`playerY)
    {
      if laserBeam.None? {
        return;
      }
      var b := laserBeam.value;
      b := b.(x := b.source.x + BossWidth / 2.0 - LaserWidth / 2.0);
      b := b.(life := b.life - 1);
      if b.life > 0 {
        b := BeamContact(b);
        laserBeam := Some(b);
      } else {
        laserBeam := None;
      }
    }

    /** A beam still alive this frame against the player: on contact the
        player takes its damage and the beam's damage drops to zero. */
    method BeamContact(b: LaserBeam) returns (c: LaserBeam)
      requires Valid()
      modifies this`playerHp, this`gameOver,
               this`enemySpawnTimer, this`enemyShootTimer, this`hpItemSpawnTimer, this`difficultyTimer
      ensures Valid()
      ensures c == if Colliding(b.Bounds(), PlayerBox()) then b.(damage := 0) else b
      ensures Health(playerHp, gameOver) == AfterDamage(Health(old(playerHp), old(gameOver)),
        if Colliding(b.Bounds(), PlayerBox()) then b.damage else 0)
    {
      c := b;
      if Colliding(b.Bounds(), PlayerBox()) {
        TakeDamage(b.damage);
        c := b.(damage := 0);
      }
    }

    /** An enemy moves down; if it then touches the player, the player takes
        the contact damage and the enemy's hit points drop to zero. */
    method RamPlayer(e: Enemy) returns (c: Enemy)
      requires Valid()
      modifies this`playerHp, this`gameOver,
               this`enemySpawnTimer, this`enemyShootTimer, this`hpItemSpawnTimer, this`difficultyTimer
      ensures Valid()
      ensures c == Rammed(e, PlayerBox())
      ensures Health(playerHp, gameOver) == AfterDamage(Health(old(playerHp), old(gameOver)),
        if Colliding(Advance(e).Bounds(), PlayerBox()) then ContactDamage else 0)
    {
      c := e.(y := e.y + e.speed);
      if Colliding(c.Bounds(), PlayerBox()) {
        TakeDamage(ContactDamage);
        c := c.(hp := 0);
      }
    }

    /** The enemy `c` takes the place of enemy `i`; with no hit points left it
        is destroyed: one point, and with `roll` below the drop chance a score
        item where it died. */
    method KillEnemy(i: nat, c: Enemy, roll: real)
      requires Valid() && i < |enemies|
      modifies this`enemies, this`score, this`items
      ensures Valid()
      ensures enemies == old(enemies)[i := Settle(c)]
      ensures score == old(score) + (if c.hp <= 0 then 1 else 0)
      ensures items == old(items) + (if c.hp <= 0 && roll < DropChance then [Drop(Settle(c))] else [])
    {
      var d := c;
      if d.hp <= 0 {
        d := d.(destroyed := true);
        score := score + 1;
        if roll < DropChance {
          SpawnItem(d.x + d.width / 2.0 - ItemSize / 2.0, d.y, ScoreItem);
        }
      }
      enemies := enemies[i := d];
    }

    /** An enemy's contact with the player and with the player's bullets. */
    method HitEnemy(e: Enemy, color: Color, sparks: seq<Spark>) returns (c: Enemy)
      requires Valid() && |sparks| == ParticlesPerBurst
      modifies this`bullets, this`effects, this`playerHp, this`gameOver,
               this`enemySpawnTimer, this`enemyShootTimer, this`hpItemSpawnTimer, this`difficultyTimer
      ensures Valid()
      ensures var r := Rammed(e, PlayerBox()); c == r.(hp := r.hp - Damage(Advance(e).Bounds(), old(bullets)))
      ensures bullets == Strike(Advance(e).Bounds(), old(bullets))
      ensures effects == old(effects) + StrikeBursts(Advance(e).Bounds(), old(bullets), color, sparks)
      ensures Health(playerHp, gameOver) == AfterDamage(Health(old(playerHp), old(gameOver)),
        if Colliding(Advance(e).Bounds(), PlayerBox()) then ContactDamage else 0)
    {
      c := RamPlayer(e);
      var hp := StrikeTarget(c.Bounds(), c.hp, color, sparks);
      c := c.(hp := hp);
    }

    /** One enemy of the enemy pass, at index `i`, with its drop roll. */
    method StepEnemy(i: nat, roll: real, color: Color, sparks: seq<Spark>)
      requires Valid() && i < |enemies| && |sparks| == ParticlesPerBurst
      modifies this`enemies, this`bullets, this`effects, this`items, this`score, this`playerHp, this`gameOver,
               this`enemySpawnTimer, this`enemyShootTimer, this`hpItemSpawnTimer, this`difficultyTimer
      ensures Valid()
      ensures var e := Hit(old(enemies[i]), PlayerBox(), old(bullets));
        && enemies == old(enemies)[i := e]
        && score == old(score) + (if e.hp <= 0 then 1 else 0)
        && items == old(items) + (if e.hp <= 0 && roll < DropChance then [Drop(e)] else [])
      ensures var t := Advance(old(enemies[i])).Bounds();
        && bullets == Strike(t, old(bullets))
        && effects == old(effects) + StrikeBursts(t, old(bullets), color, sparks)
        && Health(playerHp, gameOver) == AfterDamage(Health(old(playerHp), old(gameOver)),
             if Colliding(t, PlayerBox()) then ContactDamage else 0)
    {
      var c := HitEnemy(enemies[i], color, sparks);
      KillEnemy(i, c, roll);
    }

    /** The state holds the result of the enemy pass over the first `i` enemies
        of `es`, started from bullets `bs`, effects `effects0`, items `items0`,
        score `score0` and health `h0`; the rest of `es` is still untouched. */
    ghost predicate PassedThrough(es: seq<Enemy>, bs: seq<Bullet>, rolls: seq<real>, h0: Health,
                                  effects0: seq<Effect>, items0: seq<Item>, score0: int,
                                  i: nat, color: Color, sparks: seq<Spark>)
      requires |rolls| == |es| && i <= |es| && 0 <= h0.hp <= MaxHp
      reads this`enemies, this`bullets, this`effects, this`items, this`score, this`playerHp, this`gameOver,
            this`playerX, this`playerY
    {
      var p := EnemyPass(es[..i], bs, PlayerBox(), rolls[..i], color, sparks);
      && enemies == p.enemies + es[i..] && bullets == p.bullets
      && effects == effects0 + p.effects && items == items0 + p.drops && score == score0 + p.kills
      && Health(playerHp, gameOver) == AfterDamage(h0, ContactDamage * p.contacts)
    }

    /** One iteration of the enemy pass: the state that holds the pass over the
        first `i` enemies afterwards holds the pass over the first `i + 1`. */
    method PassEnemy(ghost es: seq<Enemy>, ghost bs: seq<Bullet>, rolls: seq<real>,
                     ghost h0: Health, ghost effects0: seq<Effect>, ghost items0: seq<Item>, ghost score0: int,
                     i: nat, color: Color, sparks: seq<Spark>)
      requires Valid() && |rolls| == |es| && i < |es| && |sparks| == ParticlesPerBurst && 0 <= h0.hp <= MaxHp
      requires PassedThrough(es, bs, rolls, h0, effects0, items0, score0, i, color, sparks)
      modifies this`enemies, this`bullets, this`effects, this`items, this`score, this`playerHp, this`gameOver,
               this`enemySpawnTimer, this`enemyShootTimer, this`hpItemSpawnTimer, this`difficultyTimer
      ensures Valid()
      ensures PassedThrough(es, bs, rolls, h0, effects0, items0, score0, i + 1, color, sparks)
    {
      ghost var P := PlayerBox();
      ghost var p := EnemyPass(es[..i], bs, P, rolls[..i], color, sparks);
      ghost var t := Advance(es[i]).Bounds();
      ghost var e := Hit(es[i], P, p.bullets);
      EnemyPassStep(es, bs, P, rolls, color, sparks, i, h0);
      StepEnemy(i, rolls[i], color, sparks);
      Splice(p.enemies, e, es, i);
      AppendAssoc(effects0, p.effects, StrikeBursts(t, p.bullets, color, sparks));
      AppendAssoc(items0, p.drops, if e.hp <= 0 && rolls[i] < DropChance then [Drop(e)] else []);
    }

    /** The enemy pass of a frame, one enemy after the other, as `EnemyPass` describes. */
    method UpdateEnemies(rolls: seq<real>, color: Color, sparks: seq<Spark>)
      requires Valid() && |rolls| == |enemies| && |sparks| == ParticlesPerBurst
      modifies this`enemies, this`bullets, this`effects, this`items, this`score, this`playerHp, this`gameOver,
               this`enemySpawnTimer, this`enemyShootTimer, this`hpItemSpawnTimer, this`difficultyTimer
      ensures Valid()
      ensures var r := EnemyPass(old(enemies), old(bullets), PlayerBox(), rolls, color, sparks);
        && enemies == r.enemies && bullets == r.bullets
        && effects == old(effects) + r.effects && items == old(items) + r.drops
        && score == old(score) + r.kills
        && Health(playerHp, gameOver) == AfterDamage(Health(old(playerHp), old(gameOver)), ContactDamage * r.contacts)
    {
      ghost var es, bs := enemies, bullets;
      ghost var h0, effects0, items0, score0 := Health(playerHp, gameOver), effects, items, score;
      var n := |enemies|;
      assert es[..0] == [] && rolls[..0] == [];
      for i := 0 to n
        invariant Valid()
        invariant PassedThrough(es, bs, rolls, h0, effects0, items0, score0, i, color, sparks)
      {
        PassEnemy(es, bs, rolls, h0, effects0, items0, score0, i, color, sparks);
      }
      assert es[..n] == es && rolls[..n] == rolls;
    }

    /** The cleanup after the enemy pass: used and off-screen bullets are
        dropped, then the enemies are cleaned up. */
    method CleanUp(color: Color, sparks: seq<Spark>)
      requires Valid() && |sparks| == ParticlesPerBurst
      modifies this`bullets, this`enemies, this`effects
      ensures Valid()
      ensures bullets == Filter(old(bullets), Live)
      ensures enemies == Filter(old(enemies), KeepEnemy(H))
      ensures effects == old(effects) + DeathBursts(old(enemies), color, sparks)
    {
      bullets := Filter(bullets, Live);
      RemoveEnemies(color, sparks);
    }

    /** Each destroyed enemy explodes and is dropped, as is every enemy below the canvas. */
    method RemoveEnemies(color: Color, sparks: seq<Spark>)
      requires |sparks| == ParticlesPerBurst
      modifies this`enemies, this`effects
      ensures enemies == Filter(old(enemies), KeepEnemy(H))
      ensures effects == old(effects) + DeathBursts(old(enemies), color, sparks)
    {
      var es := enemies;
      var kept: seq<Enemy> := [];
      for i := 0 to |es|
        invariant kept == Filter(es[..i], KeepEnemy(H))
        invariant effects == old(effects) + DeathBursts(es[..i], color, sparks)
        modifies this`effects
      {
        kept := RemoveStep(es, kept, old(effects), i, color, sparks);
      }
      assert es[..|es|] == es;
      enemies := kept;
    }

    /** One iteration of the enemy cleanup: enemy `i` of `es` explodes if
        destroyed and is kept if it survives. */
    method RemoveStep(es: seq<Enemy>, kept: seq<Enemy>, ghost effects0: seq<Effect>, i: nat,
                      color: Color, sparks: seq<Spark>) returns (next: seq<Enemy>)
      requires |sparks| == ParticlesPerBurst && i < |es|
      requires kept == Filter(es[..i], KeepEnemy(H))
      requires effects == effects0 + DeathBursts(es[..i], color, sparks)
      modifies this`effects
      ensures next == Filter(es[..i + 1], KeepEnemy(H))
      ensures effects == effects0 + DeathBursts(es[..i + 1], color, sparks)
    {
      var e := es[i];
      CleanStep(es, i, H, color, sparks);
      next := kept;
      if e.destroyed {
        SpawnEffect(e.x + e.width / 2.0, e.y + e.height / 2.0, color, sparks);
      } else if e.y < H {
        next := kept + [e];
      }
    }

    /** One enemy or boss bullet moves; touching the player, it hurts it and is used. */
    method FlyEnemyBullet(b: EnemyBullet) returns (moved: EnemyBullet)
      requires Valid()
      modifies this`playerHp, this`gameOver,
               this`enemySpawnTimer, this`enemyShootTimer, this`hpItemSpawnTimer, this`difficultyTimer
      ensures Valid()
      ensures moved == Fly(b, PlayerBox())
      ensures Health(playerHp, gameOver) == AfterDamage(Health(old(playerHp), old(gameOver)), HarmNow(b, PlayerBox()))
    {
      if b.isBossBullet {
        moved := b.(x := b.x + b.dx, y := b.y + b.dy);
      } else {
        moved := b.(y := b.y + b.speed);
      }
      if Colliding(moved.Bounds(), PlayerBox()) {
        TakeDamage(if moved.isBossBullet then moved.damage else EnemyBulletDamage);
        moved := moved.(hit := true);
      }
    }

    /** The first `i` bullets of `bs0` have flown (giving `bs`), the rest not yet,
        and the player took the damage of the flown ones, starting from `h0`. */
    ghost predicate FlownThrough(bs: seq<EnemyBullet>, bs0: seq<EnemyBullet>, player: Box, h0: Health, i: nat)
      requires i <= |bs0| && 0 <= h0.hp <= MaxHp
      reads this`playerHp, this`gameOver
    {
      && |bs| == |bs0|
      && (forall k :: 0 <= k < i ==> bs[k] == Fly(bs0[k], player))
      && (forall k :: i <= k < |bs| ==> bs[k] == bs0[k])
      && Health(playerHp, gameOver) == AfterDamage(h0, HarmTotal(bs0[..i], player))
    }

    /** One iteration of the enemy bullet pass: bullet `i` flies. */
    method FlyStep(bs: seq<EnemyBullet>, ghost bs0: seq<EnemyBullet>, ghost h0: Health, i: nat)
      returns (next: seq<EnemyBullet>)
      requires Valid() && i < |bs0| && 0 <= h0.hp <= MaxHp
      requires FlownThrough(bs, bs0, PlayerBox(), h0, i)
      modifies this`playerHp, this`gameOver,
               this`enemySpawnTimer, this`enemyShootTimer, this`hpItemSpawnTimer, this`difficultyTimer
      ensures Valid()
      ensures FlownThrough(next, bs0, PlayerBox(), h0, i + 1)
    {
      HarmStep(h0, bs0, i, PlayerBox());
      var b := FlyEnemyBullet(bs[i]);
      next := bs[i := b];
    }

    /** Every enemy and boss bullet moves; one touching the player hurts it
        and is used; used bullets and bullets below the canvas are dropped. */
    method UpdateEnemyBullets()
      requires Valid()
      modifies this`enemyBullets, this`playerHp, this`gameOver,
               this`enemySpawnTimer, this`enemyShootTimer, this`hpItemSpawnTimer, this`difficultyTimer
      ensures Valid()
      ensures enemyBullets == Filter(Flown(old(enemyBullets), PlayerBox()), KeepEnemyBullet(H))
      ensures Health(playerHp, gameOver) ==
        AfterDamage(Health(old(playerHp), old(gameOver)), HarmTotal(old(enemyBullets), PlayerBox()))
      ensures unchanged(this`laserBeam, this`enemies, this`bullets, this`effects, this`items, this`score,
                        this`playerX, this`playerY)
    {
      var bs := FlyAll(enemyBullets);
      enemyBullets := Filter(bs, KeepEnemyBullet(H));
    }

    /** The movement loop of the enemy bullet pass, over the bullets `bs0`. */
    method FlyAll(bs0: seq<EnemyBullet>) returns (bs: seq<EnemyBullet>)
      requires Valid()
      modifies this`playerHp, this`gameOver,
               this`enemySpawnTimer, this`enemyShootTimer, this`hpItemSpawnTimer, this`difficultyTimer
      ensures Valid()
      ensures bs == Flown(bs0, PlayerBox())
      ensures Health(playerHp, gameOver) == AfterDamage(Health(old(playerHp), old(gameOver)), HarmTotal(bs0, PlayerBox()))
      ensures unchanged(this`laserBeam, this`enemies, this`bullets, this`effects, this`items, this`score,
                        this`playerX, this`playerY)
    {
      bs := bs0;
      ghost var h0 := Health(playerHp, gameOver);
      assert bs0[..0] == [];
      for i := 0 to |bs0|
        invariant Valid()
        invariant FlownThrough(bs, bs0, PlayerBox(), h0, i)
        modifies this`playerHp, this`gameOver,
                 this`enemySpawnTimer, this`enemyShootTimer, this`hpItemSpawnTimer, this`difficultyTimer
      {
        bs := FlyStep(bs, bs0, h0, i);
      }
      assert bs == Flown(bs0, PlayerBox());
      assert bs0[..|bs0|] == bs0;
    }

    /** The start of a frame: difficulty, effects, items, the player and the
        player's bullets. */
    method StartFrame(left: bool, right: bool)
      requires Valid() && !gameOver
      modifies this`boss, this`currentStageIndex, this`enemySpawnTimer, this`enemyShootTimer, this`difficultyTimer,
               this`effects, this`items, this`score, this`playerHp, this`playerX, this`bullets
      ensures Valid() && !gameOver
      ensures score >= old(score) && currentStageIndex >= old(currentStageIndex)
      ensures (boss != old(boss)) <==> (old(score) >= BossSpawnScore && old(boss) == null)
      ensures boss != old(boss) ==>
        && fresh(boss) && boss.hp == BossHp && boss.phase == Entrance
        && boss.x == W / 2.0 - BossWidth / 2.0 && boss.y == BossStartY
        && boss.attackTimer == 0 && boss.moveDirection == 1 && boss.moveTime == 0
        && currentStageIndex == old(currentStageIndex)
        && enemySpawnTimer == Off && enemyShootTimer == Off && difficultyTimer == Off
      ensures currentStageIndex ==
        (if old(boss) == null && old(score) < BossSpawnScore && ScoreAdvance(old(currentStageIndex), old(score))
         then old(currentStageIndex) + 1 else old(currentStageIndex))
      ensures Moved(old(effects), old(items), old(score), old(playerHp), old(playerX), old(bullets), left, right)
    {
      CheckDifficulty();
      MoveAll(left, right);
    }

    /** After the movement part of a frame from effects `fx`, items `its`,
        score `sc`, hit points `hp`, player position `x` and bullets `bs`:
        the effects have aged, the items have fallen and paid out against the
        player where it stood, the player has steered and the bullets have risen. */
    ghost predicate Moved(fx: seq<Effect>, its: seq<Item>, sc: int, hp: int, x: real, bs: seq<Bullet>,
                          left: bool, right: bool)
      requires hp <= MaxHp
      reads this`effects, this`items, this`score, this`playerHp, this`playerX, this`playerY, this`bullets
    {
      var player := Box(x, playerY, PlayerWidth, PlayerHeight);
      && effects == Filter(Faded(fx), Alive)
      && items == Filter(Fallen(its, player), KeepItem(H))
      && score == sc + ScoreGain(its, player)
      && playerHp == Healed(hp, HealAmount * HealCount(its, player))
      && playerX == Steer(x, left, right, W)
      && bullets == Filter(Raised(bs), OnScreen)
    }

    /** The movement part of the start of a frame: effects, items, the player
        and the player's bullets. */
    method MoveAll(left: bool, right: bool)
      requires Valid() && !gameOver
      modifies this`effects, this`items, this`score, this`playerHp, this`playerX, this`bullets
      ensures Valid() && !gameOver
      ensures score >= old(score)
      ensures Moved(old(effects), old(items), old(score), old(playerHp), old(playerX), old(bullets), left, right)
    {
      UpdateEffects();
      UpdateItems();
      ghost var fx, its, sc, hp := effects, items, score, playerHp;
      MovePlayer(left, right);
      MoveBullets();
      assert effects == fx && items == its && score == sc && playerHp == hp;
    }

    /** The end of a frame: the beam, the enemies, the cleanup and the enemy bullets. */
    method EndFrame(rolls: seq<real>, color: Color, sparks: seq<Spark>)
      requires Valid() && |sparks| == ParticlesPerBurst && |rolls| == |enemies|
      modifies this`laserBeam, this`playerHp, this`gameOver,
               this`enemySpawnTimer, this`enemyShootTimer, this`hpItemSpawnTimer, this`difficultyTimer,
               this`enemies, this`bullets, this`effects, this`items, this`score, this`enemyBullets
      ensures Valid()
      ensures score >= old(score)
      ensures enemyBullets == Filter(Flown(old(enemyBullets), PlayerBox()), KeepEnemyBullet(H))
      ensures FrameEnded(old(BeamNow()), PlayerBox(), old(enemies), old(bullets), old(effects), old(items),
                         old(score), old(enemyBullets), Health(old(playerHp), old(gameOver)), rolls, color, sparks)
      ensures unchanged(this`playerX, this`playerY)
    {
      ghost var player, ebs := PlayerBox(), enemyBullets;
      EnemyPhase(rolls, color, sparks);
      assert PlayerBox() == player && enemyBullets == ebs;
      UpdateEnemyBullets();
    }

    /** After the enemy pass and its cleanup against the player at `player`,
        run over enemies `es`, player bullets `bs`, effects `fx`, items `its`
        and score `sc` with the drop rolls `rolls`: enemies destroyed or below
        the canvas are gone, used bullets are gone, hits and deaths have burst,
        drops have landed and kills have scored. */
    ghost predicate EnemiesDone(player: Box, es: seq<Enemy>, bs: seq<Bullet>, fx: seq<Effect>, its: seq<Item>,
                                sc: int, rolls: seq<real>, color: Color, sparks: seq<Spark>)
      requires |rolls| == |es|
      reads this`enemies, this`bullets, this`effects, this`items, this`score
    {
      var r := EnemyPass(es, bs, player, rolls, color, sparks);
      && enemies == Filter(r.enemies, KeepEnemy(H))
      && bullets == Filter(r.bullets, Live)
      && effects == fx + r.effects + DeathBursts(r.enemies, color, sparks)
      && items == its + r.drops
      && score == sc + r.kills
    }

    /** After the end of a frame against the player at `player`, with the
        beam's frame `o`, the enemy pass's inputs, enemy bullets `ebs` and
        health `h0`: the beam has had its frame, the enemy pass is done, the
        enemy bullets have flown, and the player has taken the beam's, the
        rams' and the bullets' damage in that order. */
    ghost predicate FrameEnded(o: BeamOutcome, player: Box, es: seq<Enemy>, bs: seq<Bullet>, fx: seq<Effect>,
                               its: seq<Item>, sc: int, ebs: seq<EnemyBullet>, h0: Health,
                               rolls: seq<real>, color: Color, sparks: seq<Spark>)
      requires |rolls| == |es| && 0 <= h0.hp <= MaxHp
      reads this`laserBeam, this`enemies, this`bullets, this`effects, this`items, this`score,
            this`enemyBullets, this`playerHp, this`gameOver
    {
      && laserBeam == o.beam
      && EnemiesDone(player, es, bs, fx, its, sc, rolls, color, sparks)
      && enemyBullets == Filter(Flown(ebs, player), KeepEnemyBullet(H))
      && Health(playerHp, gameOver) ==
           AfterDamage(AfterDamage(AfterDamage(h0, o.dealt), ContactDamage * Contacts(es, player)),
                       HarmTotal(ebs, player))
    }

    /** The beam, then the enemy pass of a frame followed by the cleanup of bullets and enemies. */
    method EnemyPhase(rolls: seq<real>, color: Color, sparks: seq<Spark>)
      requires Valid() && |sparks| == ParticlesPerBurst && |rolls| == |enemies|
      modifies this`laserBeam, this`enemies, this`bullets, this`effects, this`items, this`score, this`playerHp, this`gameOver,
               this`enemySpawnTimer, this`enemyShootTimer, this`hpItemSpawnTimer, this`difficultyTimer
      ensures Valid()
      ensures score >= old(score)
      ensures laserBeam == old(BeamNow()).beam
      ensures EnemiesDone(PlayerBox(), old(enemies), old(bullets), old(effects), old(items), old(score), rolls, color, sparks)
      ensures Health(playerHp, gameOver) ==
        AfterDamage(AfterDamage(Health(old(playerHp), old(gameOver)), old(BeamNow()).dealt),
                    ContactDamage * Contacts(old(enemies), PlayerBox()))
    {
      ghost var player, es, bs, fx, its, sc := PlayerBox(), enemies, bullets, effects, items, score;
      UpdateLaser();
      assert PlayerBox() == player && enemies == es && bullets == bs && effects == fx && items == its && score == sc;
      PassAndClean(rolls, color, sparks);
    }

    /** The enemy pass of a frame followed by the cleanup of bullets and enemies. */
    method PassAndClean(rolls: seq<real>, color: Color, sparks: seq<Spark>)
      requires Valid() && |sparks| == ParticlesPerBurst && |rolls| == |enemies|
      modifies this`enemies, this`bullets, this`effects, this`items, this`score, this`playerHp, this`gameOver,
               this`enemySpawnTimer, this`enemyShootTimer, this`hpItemSpawnTimer, this`difficultyTimer
      ensures Valid()
      ensures score >= old(score)
      ensures EnemiesDone(PlayerBox(), old(enemies), old(bullets), old(effects), old(items), old(score), rolls, color, sparks)
      ensures Health(playerHp, gameOver) ==
        AfterDamage(Health(old(playerHp), old(gameOver)), ContactDamage * Contacts(old(enemies), PlayerBox()))
    {
      UpdateEnemies(rolls, color, sparks);
      CleanUp(color, sparks);
      AppendAssoc(old(effects), EnemyPass(old(enemies), old(bullets), PlayerBox(), rolls, color, sparks).effects,
                  DeathBursts(EnemyPass(old(enemies), old(bullets), PlayerBox(), rolls, color, sparks).enemies, color, sparks));
    }

    /** One scheduled frame of the game loop, with the frame's key state and
        rolls in `inp`; nothing moves once the game is over. A boss destroyed
        this frame ends the frame before the beam, the enemies and the enemy
        bullets, and before the next frame is scheduled, so the loop stops. */
    method Update(inp: FrameInput)
      requires Valid() && frameScheduled && |inp.sparks| == ParticlesPerBurst && |inp.dropRolls| == |enemies|
      modifies this, boss
      ensures Valid()
      ensures frameScheduled <==> !(old(boss) != null && boss == null)
      ensures old(gameOver) ==> unchanged(this)
      ensures score >= old(score) && currentStageIndex >= old(currentStageIndex)
      ensures !old(gameOver) ==> playerX == Steer(old(playerX), inp.left, inp.right, W)
      ensures !old(gameOver) && old(boss) != null && boss == null ==>
        (enemies == old(enemies) && enemyBullets == old(enemyBullets) && laserBeam == old(laserBeam))
      ensures !old(gameOver) && !(old(boss) != null && boss == null) ==>
        enemyBullets == Filter(Flown(old(enemyBullets), PlayerBox()), KeepEnemyBullet(H))
    {
      if gameOver {
        return;
      }
      var killed := RunFrame(inp);
      frameScheduled := !killed;
    }

    /** The state changes of a frame that runs: the start of the frame, then the rest of it. */
    method RunFrame(inp: FrameInput) returns (killed: bool)
      requires Valid() && !gameOver && |inp.sparks| == ParticlesPerBurst && |inp.dropRolls| == |enemies|
      modifies boss, this`boss, this`bullets, this`effects, this`pendingBurstShots, this`isLaserCharging,
               this`pendingLaserCharges, this`score, this`currentStageIndex, this`gameOver,
               this`enemySpawnTimer, this`enemyShootTimer, this`hpItemSpawnTimer, this`difficultyTimer,
               this`laserBeam, this`playerHp, this`enemies, this`items, this`enemyBullets, this`playerX
      ensures Valid()
      ensures killed <==> old(boss) != null && boss == null
      ensures score >= old(score) && currentStageIndex >= old(currentStageIndex)
      ensures playerX == Steer(old(playerX), inp.left, inp.right, W)
      ensures killed ==>
        (enemies == old(enemies) && enemyBullets == old(enemyBullets) && laserBeam == old(laserBeam))
      ensures !killed ==>
        enemyBullets == Filter(Flown(old(enemyBullets), PlayerBox()), KeepEnemyBullet(H))
    {
      ghost var es, ebs, beam := enemies, enemyBullets, laserBeam;
      StartFrame(inp.left, inp.right);
      assert enemies == es && enemyBullets == ebs && laserBeam == beam;
      killed := RestOfFrame(inp);
    }

    /** The frame after the player's bullets have moved: the boss, and unless
        the boss was destroyed, the end of the frame. */
    method RestOfFrame(inp: FrameInput) returns (killed: bool)
      requires Valid() && !gameOver && |inp.sparks| == ParticlesPerBurst && |inp.dropRolls| == |enemies|
      modifies boss, this`boss, this`bullets, this`effects, this`pendingBurstShots, this`isLaserCharging,
               this`pendingLaserCharges, this`score, this`currentStageIndex, this`gameOver,
               this`enemySpawnTimer, this`enemyShootTimer, this`hpItemSpawnTimer, this`difficultyTimer,
               this`laserBeam, this`playerHp, this`enemies, this`items, this`enemyBullets
      ensures Valid()
      ensures killed <==> old(boss) != null && boss == null
      ensures score >= old(score) && currentStageIndex >= old(currentStageIndex)
      ensures unchanged(this`playerX, this`playerY)
      ensures old(boss) != null && old(boss.phase) == Entrance ==> boss != null
      ensures old(boss) != null && boss == null ==>
        (enemies == old(enemies) && enemyBullets == old(enemyBullets) && laserBeam == old(laserBeam))
      ensures !(old(boss) != null && boss == null) ==>
        enemyBullets == Filter(Flown(old(enemyBullets), PlayerBox()), KeepEnemyBullet(H))
      ensures old(boss) == null ==>
        FrameEnded(old(BeamNow()), PlayerBox(), old(enemies), old(bullets), old(effects), old(items), old(score),
                   old(enemyBullets), Health(old(playerHp), old(gameOver)), inp.dropRolls, Hue(inp.hue), inp.sparks)
      ensures old(boss) != null && boss == null ==> BossKilled(old(boss), inp,
        old(boss.x), old(boss.y), old(boss.hp), old(boss.attackTimer), old(boss.moveDirection), old(boss.moveTime),
        old(pendingBurstShots), old(isLaserCharging), old(pendingLaserCharges),
        old(bullets), old(effects), old(items), old(playerHp), old(score), old(currentStageIndex))
    {
      if boss == null {
        EndFrame(inp.dropRolls, Hue(inp.hue), inp.sparks);
        killed := false;
      } else {
        killed := BossUpFrame(inp);
      }
    }

    /** The frame after the player's bullets have moved, with a boss up: the
        boss's frame, and unless it was destroyed, the end of the frame. */
    method BossUpFrame(inp: FrameInput) returns (killed: bool)
      requires Valid() && !gameOver && boss != null && |inp.sparks| == ParticlesPerBurst && |inp.dropRolls| == |enemies|
      modifies boss, this`boss, this`bullets, this`effects, this`pendingBurstShots, this`isLaserCharging,
               this`pendingLaserCharges, this`score, this`currentStageIndex, this`gameOver,
               this`enemySpawnTimer, this`enemyShootTimer, this`hpItemSpawnTimer, this`difficultyTimer,
               this`laserBeam, this`playerHp, this`enemies, this`items, this`enemyBullets
      ensures Valid()
      ensures score >= old(score) && currentStageIndex >= old(currentStageIndex)
      ensures unchanged(this`playerX, this`playerY)
      ensures killed <==> boss == null
      ensures old(boss.phase) == Entrance ==> !killed
      ensures killed ==>
        (enemies == old(enemies) && enemyBullets == old(enemyBullets) && laserBeam == old(laserBeam))
      ensures !killed ==>
        enemyBullets == Filter(Flown(old(enemyBullets), PlayerBox()), KeepEnemyBullet(H))
      ensures killed ==> BossKilled(old(boss), inp,
        old(boss.x), old(boss.y), old(boss.hp), old(boss.attackTimer), old(boss.moveDirection), old(boss.moveTime),
        old(pendingBurstShots), old(isLaserCharging), old(pendingLaserCharges),
        old(bullets), old(effects), old(items), old(playerHp), old(score), old(currentStageIndex))
    {
      killed := BossFrame(inp.attackRoll, Hue(inp.hue), inp.sparks);
      if !killed {
        EndFrame(inp.dropRolls, Hue(inp.hue), inp.sparks);
      }
    }

    /** After a frame in which the boss `b`, fighting from position `x`, `y`,
        hit points `hp`, attack timer and motion, with the attack state, player
        bullets `bs`, effects `fx`, items `its`, hit points `php`, score `sc`
        and stage `stage` at the start of the frame's boss step, was destroyed:
        it swept and may have attacked, the bullets it met used up its hit
        points, it exploded, the kill scored and the stage advanced, and the
        frame ended there. */
    ghost predicate BossKilled(b: Boss, inp: FrameInput, x: real, y: real, hp: int, timer: int, dir: int, time: int,
                               shots: nat, charging: bool, charges: nat,
                               bs: seq<Bullet>, fx: seq<Effect>, its: seq<Item>, php: int, sc: int, stage: nat)
      requires (dir == 1 || dir == -1) && 0 <= time <= MaxMoveTime
      reads this`bullets, this`effects, this`items, this`playerHp, this`score, this`currentStageIndex,
            this`gameOver, this`pendingBurstShots, this`isLaserCharging, this`pendingLaserCharges, b
    {
      var m := SweepStep(Motion(x, dir, time), W);
      var t := Box(m.x, y, BossWidth, BossHeight);
      && Motion(b.x, b.moveDirection, b.moveTime) == m
      && Attacked(b, inp.attackRoll, timer, charging, shots, charges)
      && b.hp == hp - Damage(t, bs) <= 0
      && bullets == Strike(t, bs)
      && effects == fx + StrikeBursts(t, bs, Hue(inp.hue), inp.sparks)
           + Bursts(BossExplosionBursts, Burst(t.x + BossWidth / 2.0, t.y + BossHeight / 2.0, Yellow, inp.sparks))
      && items == its && playerHp == php
      && score == sc + BossKillScore && currentStageIndex == stage + 1
      && (gameOver <==> currentStageIndex == |Stages|)
    }
  }
}
