/** The difficulty table and the spawner's arithmetic: which enemy kind a roll
    selects, the hit points a spawned enemy gets, which enemy shoots, and when
    the score may raise the stage. */
module Difficulty {
  import opened Entities

  datatype Stage = Stage(scoreThreshold: int, spawnInterval: nat, enemySpeedMultiplier: real,
                         enemyBulletSpeed: real, enemyShootInterval: nat, hpMultiplier: real)

  /** The five difficulty rows, easiest first. */
  const Stages: seq<Stage> := [
    Stage(0, 1000, 1.0, 4.0, 1200, 1.0),
    Stage(50, 800, 1.2, 5.0, 1000, 1.2),
    Stage(150, 600, 1.5, 6.0, 800, 1.5),
    Stage(300, 500, 1.8, 7.0, 600, 2.0),
    Stage(500, 400, 2.0, 8.0, 500, 2.5)
  ]

  const BossSpawnScore: int := 100
  /** Period of the time-based stage advance, in milliseconds. */
  const DifficultyPeriod: nat := 50000
  /** Period of the hp-item spawner, in milliseconds. */
  const HpItemPeriod: nat := 5000

  /** Rounding to the nearest integer, halves upwards (JavaScript's Math.round). */
  function Round(x: real): (r: int)
    ensures x - 0.5 < r as real <= x + 0.5
  {
    (x + 0.5).Floor
  }

  /** The enemy kind a uniform roll selects: 60% normal, 25% tanker, 15% speedster. */
  function KindFor(roll: real): (k: EnemyKind)
    ensures k == Normal <==> roll < 0.6
    ensures k == Tanker <==> 0.6 <= roll < 0.85
    ensures k == Speedster <==> 0.85 <= roll
  {
    if roll < 0.6 then Normal else if roll < 0.85 then Tanker else Speedster
  }

  function BaseHp(k: EnemyKind): nat
  {
    match k
    case Normal => NormalBaseHp
    case Tanker => TankerBaseHp
    case Speedster => SpeedsterBaseHp
  }

  function KindSpeedMultiplier(k: EnemyKind): real
  {
    match k
    case Normal => 1.0
    case Tanker => 0.6
    case Speedster => 2.0
  }

  /** Hit points of an enemy of kind `k` spawned at stage `s`. */
  function SpawnHp(k: EnemyKind, s: Stage): (hp: int)
    requires s.hpMultiplier >= 1.0
    ensures hp >= BaseHp(k)
    ensures hp as real - 0.5 <= BaseHp(k) as real * s.hpMultiplier < hp as real + 0.5
  {
    Round(BaseHp(k) as real * s.hpMultiplier)
  }

  /** On the first stage an enemy gets exactly its base hit points; the
      half-way products of the speedster round upwards. */
  lemma SpawnHpValues()
    ensures forall k :: SpawnHp(k, Stages[0]) == BaseHp(k)
    ensures SpawnHp(Normal, Stages[1]) == 12 && SpawnHp(Tanker, Stages[1]) == 36
    ensures SpawnHp(Speedster, Stages[2]) == 8 && SpawnHp(Speedster, Stages[4]) == 13
    ensures SpawnHp(Tanker, Stages[4]) == 75
  {
    assert Round(30.0 * 1.2) == 36;
    assert Round(5.0 * 1.5) == 8;
    assert Round(5.0 * 2.5) == 13;
  }

  /** Index of the shooter picked by a uniform roll among `n` enemies. */
  function ShooterIndex(roll: real, n: nat): (i: nat)
    requires 0.0 <= roll < 1.0 && n > 0
    ensures i < n
  {
    var p := roll * n as real;
    assert p < n as real by {
      assert (1.0 - roll) * n as real > 0.0;
    }
    p.Floor
  }

  /** Speed of a bullet fired by an enemy of kind `k` at stage `s`. */
  function EnemyBulletSpeed(k: EnemyKind, s: Stage): (v: real)
    ensures k == Speedster ==> v == s.enemyBulletSpeed * 1.5
    ensures k != Speedster ==> v == s.enemyBulletSpeed
  {
    if k == Speedster then s.enemyBulletSpeed * 1.5 else s.enemyBulletSpeed
  }

  /** Whether the score path raises the stage from `index`: the next row must
      exist, its threshold must lie below the boss score, and the score must
      have reached it. */
  predicate ScoreAdvance(index: nat, score: int)
  {
    && index + 1 < |Stages|
    && Stages[index + 1].scoreThreshold < BossSpawnScore
    && score >= Stages[index + 1].scoreThreshold
  }

  /** Only the second row has a threshold below the boss score, so the score
      path can only ever move from the first stage to the second, and a score
      of at least the boss score moves nothing on any later stage. */
  lemma ScoreAdvanceOnlyFromFirstStage(index: nat, score: int)
    ensures ScoreAdvance(index, score) <==> index == 0 && score >= 50
  {
    if index + 1 < |Stages| {
      assert index == 0 || index == 1 || index == 2 || index == 3;
    }
  }
}
