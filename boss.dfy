/** The boss: its fields (changed in place every frame), its entrance and
    sweeping movement, its attack choice and the laser beam it charges. */
module BossFight {
  import opened Geometry
  import opened Wrappers

  const BossWidth: real := 120.0
  const BossHeight: real := 120.0
  const BossSpeed: real := 1.0
  const BossHp: int := 1000
  const BossStartY: real := -100.0
  /** Depth at which the entrance ends. */
  const EntranceDepth: real := 50.0
  const BossAttackCooldown: int := 90
  /** Frames the boss keeps one direction at most. */
  const MaxMoveTime: int := 120
  const BurstChance: real := 0.7
  const BurstShots: nat := 3
  const BossBulletDamage: nat := 30
  const BossBulletSize: real := 8.0
  const BossBulletSpeed: real := 6.0
  const LaserDamage: nat := 50
  const LaserLife: int := 30
  const LaserWidth: real := 10.0
  const BossKillScore: int := 1
  /** Explosions emitted when the boss dies (each of ten particles). */
  const BossExplosionBursts: nat := 50

  datatype Phase = Entrance | Fighting

  class Boss {
    var x: real
    var y: real
    var hp: int
    var phase: Phase
    var attackTimer: int
    var moveDirection: int
    var moveTime: int

    /** A fresh boss centred above a canvas of width `canvasWidth`. */
    constructor (canvasWidth: real)
      ensures x == canvasWidth / 2.0 - BossWidth / 2.0 && y == BossStartY
      ensures hp == BossHp && phase == Entrance && attackTimer == 0
      ensures moveDirection == 1 && moveTime == 0
    {
      x := canvasWidth / 2.0 - BossWidth / 2.0;
      y := BossStartY;
      hp := BossHp;
      phase := Entrance;
      attackTimer := 0;
      moveDirection := 1;
      moveTime := 0;
    }

    function Bounds(): Box
      reads this
    {
      Box(x, y, BossWidth, BossHeight)
    }

    /** The boss's own invariant on a canvas of width `w`. */
    ghost predicate Valid(w: real)
      reads this
    {
      && (moveDirection == 1 || moveDirection == -1)
      && 0 <= moveTime <= MaxMoveTime
      && 0 <= attackTimer
      && hp <= BossHp
      && (w >= BossWidth ==> 0.0 <= x <= w - BossWidth)
      && (phase == Entrance ==> y < EntranceDepth)
    }

    /** One entrance frame: descend one pixel, start fighting at the target depth. */
    method Descend(ghost w: real)
      requires phase == Entrance && Valid(w)
      modifies this
      ensures Valid(w)
      ensures y == old(y) + BossSpeed
      ensures phase == (if y >= EntranceDepth then Fighting else Entrance)
      ensures x == old(x) && hp == old(hp) && attackTimer == old(attackTimer)
      ensures moveDirection == old(moveDirection) && moveTime == old(moveTime)
    {
      y := y + BossSpeed;
      if y >= EntranceDepth {
        phase := Fighting;
      }
    }

    /** One fighting frame of horizontal movement on a canvas of width `w`. */
    method Sweep(w: real)
      requires phase == Fighting && Valid(w)
      modifies this
      ensures Valid(w)
      ensures Motion(x, moveDirection, moveTime) == SweepStep(Motion(old(x), old(moveDirection), old(moveTime)), w)
      ensures y == old(y) && hp == old(hp) && phase == old(phase) && attackTimer == old(attackTimer)
    {
      x := x + BossSpeed * moveDirection as real;
      moveTime := moveTime + 1;
      if x <= 0.0 || x + BossWidth >= w || moveTime > MaxMoveTime {
        moveDirection := -moveDirection;
        moveTime := 0;
        x := Clamp(x, 0.0, w - BossWidth);
      }
    }
  }

  /** Horizontal motion state of the boss. */
  datatype Motion = Motion(x: real, dir: int, moveTime: int)

  /** `Math.min(Math.max(v, lo), hi)`. */
  function Clamp(v: real, lo: real, hi: real): (r: real)
    ensures lo <= hi ==> lo <= r <= hi
    ensures lo <= v <= hi ==> r == v
  {
    var m := if v > lo then v else lo;
    if m < hi then m else hi
  }

  /** One frame of the sweep: move one pixel, and turn round at either edge
      or when the direction budget runs out, clamping into the playfield. */
  function SweepStep(m: Motion, w: real): (r: Motion)
    requires m.dir == 1 || m.dir == -1
    requires 0 <= m.moveTime <= MaxMoveTime
    ensures r.dir == 1 || r.dir == -1
    ensures 0 <= r.moveTime <= MaxMoveTime
    ensures r.dir == -m.dir <==> r.moveTime == 0
    ensures r.dir == m.dir ==> r.x == m.x + m.dir as real && r.moveTime == m.moveTime + 1
    ensures r.dir == -m.dir && w >= BossWidth ==> 0.0 <= r.x <= w - BossWidth
    ensures w >= BossWidth && 0.0 <= m.x <= w - BossWidth ==> 0.0 <= r.x <= w - BossWidth
  {
    var x := m.x + BossSpeed * m.dir as real;
    var t := m.moveTime + 1;
    if x <= 0.0 || x + BossWidth >= w || t > MaxMoveTime then Motion(Clamp(x, 0.0, w - BossWidth), -m.dir, 0)
    else Motion(x, m.dir, t)
  }

  /** Within one direction the boss moves for at most `MaxMoveTime` + 1 frames:
      a sweep that has kept its direction for `MaxMoveTime` frames turns round. */
  lemma SweepTurnsWithinBudget(m: Motion, w: real)
    requires m.dir == 1 || m.dir == -1
    requires m.moveTime == MaxMoveTime
    ensures SweepStep(m, w).dir == -m.dir && SweepStep(m, w).moveTime == 0
  {
  }

  datatype Attack = NoAttack | BurstFire | LaserCharge

  /** The attack chosen in a fighting frame once the timer has been advanced:
      none before the cooldown or while a laser charges, otherwise a burst
      (70%) or a laser charge (30%). */
  function ChooseAttack(attackTimer: int, charging: bool, roll: real): (a: Attack)
    ensures a != NoAttack <==> attackTimer >= BossAttackCooldown && !charging
    ensures a == BurstFire <==> attackTimer >= BossAttackCooldown && !charging && roll < BurstChance
    ensures a == LaserCharge <==> attackTimer >= BossAttackCooldown && !charging && roll >= BurstChance
  {
    if attackTimer >= BossAttackCooldown && !charging then
      (if roll < BurstChance then BurstFire else LaserCharge)
    else NoAttack
  }

  /** The laser beam; `source` is the boss that charged it, which it keeps
      following even after that boss is gone. */
  datatype LaserBeam = LaserBeam(x: real, y: real, width: real, height: real,
                                 life: int, damage: nat, source: Boss)
  {
    function Bounds(): Box { Box(x, y, width, height) }
  }

  /** The beam that appears under a boss at (bossX, bossY) on a canvas of height `h`. */
  function BeamUnder(bossX: real, bossY: real, h: real, source: Boss): (b: LaserBeam)
    ensures b.life == LaserLife && b.damage == LaserDamage && b.source == source
    ensures b.y == bossY + BossHeight && b.y + b.height == h
    ensures b.x + b.width / 2.0 == bossX + BossWidth / 2.0
  {
    LaserBeam(bossX + BossWidth / 2.0 - LaserWidth / 2.0, bossY + BossHeight, LaserWidth,
              h - (bossY + BossHeight), LaserLife, LaserDamage, source)
  }

  /** One frame of a beam: the beam and the damage it passes to the player. */
  datatype BeamOutcome = BeamOutcome(beam: Option<LaserBeam>, dealt: nat)

  /** One frame of the beam whose source boss is at `sourceX`, against the player box. */
  function BeamStep(b: LaserBeam, sourceX: real, player: Box): (r: BeamOutcome)
    ensures r.dealt <= b.damage
    ensures r.beam.None? <==> b.life <= 1
    ensures r.beam.None? ==> r.dealt == 0
    ensures r.beam.Some? ==> r.beam.value.life == b.life - 1 && r.beam.value.source == b.source
    ensures r.beam.Some? ==> r.beam.value.x == sourceX + BossWidth / 2.0 - LaserWidth / 2.0
    ensures r.beam.Some? ==> r.beam.value.damage == 0 || r.beam.value.damage == b.damage
    ensures r.dealt > 0 ==> r.beam.Some? && r.beam.value.damage == 0
  {
    var moved := b.(x := sourceX + BossWidth / 2.0 - LaserWidth / 2.0, life := b.life - 1);
    if moved.life > 0 then
      if Colliding(moved.Bounds(), player) then BeamOutcome(Some(moved.(damage := 0)), moved.damage)
      else BeamOutcome(Some(moved), 0)
    else BeamOutcome(None, 0)
  }

  /** One frame of input to a beam: where its source boss is and where the player is. */
  datatype BeamFrame = BeamFrame(sourceX: real, player: Box)

  /** Damage a beam passes to the player over a run of frames (stopping when it expires). */
  function BeamTotal(b: LaserBeam, frames: seq<BeamFrame>): nat
    decreases |frames|
  {
    if frames == [] then 0
    else
      var o := BeamStep(b, frames[0].sourceX, frames[0].player);
      o.dealt + (if o.beam.Some? then BeamTotal(o.beam.value, frames[1..]) else 0)
  }

  /** Over its whole lifetime a beam hurts the player at most once, by at most its damage. */
  lemma {:induction false} BeamHitsAtMostOnce(b: LaserBeam, frames: seq<BeamFrame>)
    ensures BeamTotal(b, frames) <= b.damage
    decreases |frames|
  {
    if frames != [] {
      var o := BeamStep(b, frames[0].sourceX, frames[0].player);
      if o.beam.Some? {
        BeamHitsAtMostOnce(o.beam.value, frames[1..]);
      }
    }
  }

  /** A beam is gone after `life` frames. */
  lemma {:induction false} BeamExpires(b: LaserBeam, frames: seq<BeamFrame>)
    requires 1 <= b.life <= |frames|
    ensures BeamAfter(b, frames[..b.life]).None?
    decreases |frames|
  {
    var o := BeamStep(b, frames[0].sourceX, frames[0].player);
    if o.beam.Some? {
      assert frames[..b.life][1..] == frames[1..][..b.life - 1];
      BeamExpires(o.beam.value, frames[1..]);
    }
  }

  /** The beam left after a run of frames, if any. */
  function BeamAfter(b: LaserBeam, frames: seq<BeamFrame>): Option<LaserBeam>
    decreases |frames|
  {
    if frames == [] then Some(b)
    else
      var o := BeamStep(b, frames[0].sourceX, frames[0].player);
      if o.beam.Some? then BeamAfter(o.beam.value, frames[1..]) else None
  }
}
