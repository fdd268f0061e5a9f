/** What one frame does to each kind of list element, as functions on values:
    effects fade, player bullets rise, items and enemy bullets fall onto the
    player, enemies advance; and the totals those passes feed into the score
    and the player's health. The state methods in module Simulation are
    proved against these. */
module Passes {
  import opened Geometry
  import opened Entities
  import opened Health
  import opened Combat

  /** One frame of the player's horizontal movement with its bound checks. */
  function Steer(x: real, left: bool, right: bool, w: real): (r: real)
    ensures x - PlayerSpeed <= r <= x + PlayerSpeed
    ensures !left && !right ==> r == x
    ensures x <= 0.0 ==> r >= x
    ensures x + PlayerWidth >= w ==> r <= x
    ensures x > 0.0 ==> r > -PlayerSpeed
    ensures x + PlayerWidth < w ==> r + PlayerWidth < w + PlayerSpeed
  {
    var x1 := if left && x > 0.0 then x - PlayerSpeed else x;
    if right && x1 + PlayerWidth < w then x1 + PlayerSpeed else x1
  }

  function Fade(e: Effect): Effect
  {
    e.(x := e.x + e.dx, y := e.y + e.dy, life := e.life - 1)
  }

  function Faded(es: seq<Effect>): (r: seq<Effect>)
    ensures |r| == |es| && forall k :: 0 <= k < |es| ==> r[k] == Fade(es[k])
  {
    seq(|es|, k requires 0 <= k < |es| => Fade(es[k]))
  }

  predicate Alive(e: Effect) { e.life > 0 }

  function Raise(b: Bullet): Bullet
  {
    b.(y := b.y - b.speed)
  }

  function Raised(bs: seq<Bullet>): (r: seq<Bullet>)
    ensures |r| == |bs| && forall k :: 0 <= k < |bs| ==> r[k] == Raise(bs[k])
  {
    seq(|bs|, k requires 0 <= k < |bs| => Raise(bs[k]))
  }

  predicate OnScreen(b: Bullet) { b.y > 0.0 }

  /** A bullet survives the cleanup pass: still on screen and unused. */
  predicate Live(b: Bullet) { b.y > 0.0 && !b.hit }

  /** One frame of an item: it falls, and is collected if it touches the player. */
  function Fall(it: Item, player: Box): Item
  {
    var m := it.(y := it.y + it.speed);
    if Colliding(m.Bounds(), player) then m.(collected := true) else m
  }

  function Fallen(its: seq<Item>, player: Box): (r: seq<Item>)
    ensures |r| == |its| && forall k :: 0 <= k < |its| ==> r[k] == Fall(its[k], player)
  {
    seq(|its|, k requires 0 <= k < |its| => Fall(its[k], player))
  }

  /** The cleanup test for items on a canvas of height `h`: still above the bottom edge and not collected. */
  function KeepItem(h: real): Item -> bool
  {
    (i: Item) => i.y < h && !i.collected
  }

  /** Whether the moved item touches the player this frame. */
  predicate Caught(it: Item, player: Box)
  {
    Colliding(it.(y := it.y + it.speed).Bounds(), player)
  }

  /** Score gained from the items of `its` caught this frame. */
  function ScoreGain(its: seq<Item>, player: Box): (g: nat)
    ensures g % ScoreItemBonus == 0
    decreases |its|
  {
    if its == [] then 0
    else
      var n := |its| - 1;
      ScoreGain(its[..n], player)
        + (if Caught(its[n], player) && its[n].kind == ScoreItem then ScoreItemBonus else 0)
  }

  /** Number of hp items of `its` caught this frame. */
  function HealCount(its: seq<Item>, player: Box): (c: nat)
    ensures c <= |its|
    decreases |its|
  {
    if its == [] then 0
    else
      var n := |its| - 1;
      HealCount(its[..n], player) + (if Caught(its[n], player) && its[n].kind == HpItem then 1 else 0)
  }

  /** Caught items are never kept by the cleanup filter. */
  lemma CaughtItemsRemoved(its: seq<Item>, player: Box, h: real)
    ensures forall k :: 0 <= k < |its| && Caught(its[k], player) ==>
      Fall(its[k], player) !in Filter(Fallen(its, player), KeepItem(h))
  {
    var r := Filter(Fallen(its, player), KeepItem(h));
    forall k | 0 <= k < |its| && Caught(its[k], player)
      ensures Fall(its[k], player) !in r
    {
      assert Fall(its[k], player).collected;
      forall j | 0 <= j < |r|
        ensures r[j] != Fall(its[k], player)
      {
        assert KeepItem(h)(r[j]);
      }
    }
  }

  /** Healing twice is healing once by the sum. */
  lemma HealComposes(hp: int, a: nat, b: nat)
    requires hp <= MaxHp
    ensures Healed(Healed(hp, a), b) == Healed(hp, a + b)
  {
  }

  /** One frame of an enemy or boss bullet: it moves, and is used if it touches the player. */
  function Fly(b: EnemyBullet, player: Box): EnemyBullet
  {
    var m := Moved(b);
    if Colliding(m.Bounds(), player) then m.(hit := true) else m
  }

  function Moved(b: EnemyBullet): EnemyBullet
  {
    if b.isBossBullet then b.(x := b.x + b.dx, y := b.y + b.dy) else b.(y := b.y + b.speed)
  }

  function Flown(bs: seq<EnemyBullet>, player: Box): (r: seq<EnemyBullet>)
    ensures |r| == |bs| && forall k :: 0 <= k < |bs| ==> r[k] == Fly(bs[k], player)
  {
    seq(|bs|, k requires 0 <= k < |bs| => Fly(bs[k], player))
  }

  /** The cleanup test for enemy bullets on a canvas of height `h`: still above the bottom edge and unused. */
  function KeepEnemyBullet(h: real): EnemyBullet -> bool
  {
    (b: EnemyBullet) => b.y < h && !b.hit
  }

  /** Damage an enemy bullet does to the player: its own for a boss bullet, a fixed 20 otherwise. */
  function Harm(b: EnemyBullet): nat
  {
    if b.isBossBullet then b.damage else EnemyBulletDamage
  }

  /** Total damage the enemy bullets of `bs` pass to the player this frame. */
  function HarmTotal(bs: seq<EnemyBullet>, player: Box): nat
    decreases |bs|
  {
    if bs == [] then 0
    else
      var n := |bs| - 1;
      HarmTotal(bs[..n], player) + HarmNow(bs[n], player)
  }

  /** Damage the bullet `b` passes to the player after moving this frame. */
  function HarmNow(b: EnemyBullet, player: Box): nat
  {
    if Colliding(Moved(b).Bounds(), player) then Harm(Moved(b)) else 0
  }

  /** Taking the damage of one more bullet extends the damage of the prefix. */
  lemma HarmStep(h: Health, bs: seq<EnemyBullet>, i: nat, player: Box)
    requires 0 <= h.hp <= MaxHp && i < |bs|
    ensures AfterDamage(h, HarmTotal(bs[..i + 1], player))
         == AfterDamage(AfterDamage(h, HarmTotal(bs[..i], player)), HarmNow(bs[i], player))
  {
    assert bs[..i + 1][..i] == bs[..i];
    DamageComposes(h, HarmTotal(bs[..i], player), HarmNow(bs[i], player));
  }

  function Advance(e: Enemy): Enemy
  {
    e.(y := e.y + e.speed)
  }

  /** Number of enemies of `es` that ram the player after moving this frame. */
  function Contacts(es: seq<Enemy>, player: Box): (c: nat)
    ensures c <= |es|
    decreases |es|
  {
    if es == [] then 0
    else
      var n := |es| - 1;
      Contacts(es[..n], player) + (if Colliding(Advance(es[n]).Bounds(), player) then 1 else 0)
  }

  /** An enemy survives the cleanup pass: not destroyed and still above the bottom edge. */
  predicate Survives(e: Enemy, h: real)
  {
    !e.destroyed && e.y < h
  }

  /** The cleanup test for enemies on a canvas of height `h`. */
  function KeepEnemy(h: real): Enemy -> bool
  {
    (e: Enemy) => Survives(e, h)
  }

  /** The death explosions of the destroyed enemies of `es`, in list order. */
  function DeathBursts(es: seq<Enemy>, color: Color, sparks: seq<Spark>): (r: seq<Effect>)
    decreases |es|
  {
    if es == [] then []
    else
      var n := |es| - 1;
      DeathBursts(es[..n], color, sparks)
        + (if es[n].destroyed then Burst(es[n].x + es[n].width / 2.0, es[n].y + es[n].height / 2.0, color, sparks) else [])
  }

  /** Every destroyed enemy leaves exactly one burst of particles. */
  lemma {:induction false} DeathBurstsCount(es: seq<Enemy>, color: Color, sparks: seq<Spark>)
    requires |sparks| == ParticlesPerBurst
    ensures |DeathBursts(es, color, sparks)| == ParticlesPerBurst * Destroyed(es)
    decreases |es|
  {
    if es != [] {
      DeathBurstsCount(es[..|es| - 1], color, sparks);
    }
  }

  /** One more enemy through the cleanup pass: it is kept iff it survives,
      and it adds its burst iff it was destroyed. */
  lemma CleanStep(es: seq<Enemy>, i: nat, h: real, color: Color, sparks: seq<Spark>)
    requires i < |es|
    ensures Filter(es[..i + 1], KeepEnemy(h)) ==
      Filter(es[..i], KeepEnemy(h)) + (if Survives(es[i], h) then [es[i]] else [])
    ensures DeathBursts(es[..i + 1], color, sparks) == DeathBursts(es[..i], color, sparks)
      + (if es[i].destroyed then Burst(es[i].x + es[i].width / 2.0, es[i].y + es[i].height / 2.0, color, sparks) else [])
  {
    FilterSnoc(es, i, KeepEnemy(h));
    assert es[..i + 1][..i] == es[..i];
  }

  /** Number of enemies of `es` flagged as destroyed. */
  function Destroyed(es: seq<Enemy>): (c: nat)
    decreases |es|
  {
    if es == [] then 0
    else
      var n := |es| - 1;
      Destroyed(es[..n]) + (if es[n].destroyed then 1 else 0)
  }

  /** One enemy's frame against the bullets still unused: it moves down,
      ramming the player sets its hit points to zero, the bullets that overlap
      it strike it, and it is destroyed once its hit points are used up. */
  function Hit(e: Enemy, player: Box, bs: seq<Bullet>): (r: Enemy)
    ensures r.x == e.x && r.y == e.y + e.speed && r.width == e.width && r.height == e.height
    ensures r.speed == e.speed && r.kind == e.kind && r.maxHp == e.maxHp
    ensures r.Bounds() == Advance(e).Bounds()
    ensures !Colliding(Advance(e).Bounds(), player) ==> r.hp <= e.hp
    ensures Colliding(Advance(e).Bounds(), player) ==> r.hp <= 0
    ensures r.destroyed <==> e.destroyed || r.hp <= 0
  {
    var c := Rammed(e, player);
    Settle(c.(hp := c.hp - Damage(c.Bounds(), bs)))
  }

  /** An enemy after moving down, its hit points set to zero if it rams the player. */
  function Rammed(e: Enemy, player: Box): (r: Enemy)
    ensures r.Bounds() == Advance(e).Bounds()
  {
    var m := Advance(e);
    if Colliding(m.Bounds(), player) then m.(hp := 0) else m
  }

  /** An enemy whose hit points are used up is flagged as destroyed. */
  function Settle(c: Enemy): (r: Enemy)
    ensures r.destroyed <==> c.destroyed || c.hp <= 0
    ensures r == c.(destroyed := r.destroyed)
  {
    if c.hp <= 0 then c.(destroyed := true) else c
  }

  /** The item a killed enemy may drop: a score item under its centre. */
  function Drop(e: Enemy): Item
  {
    Item(e.x + e.width / 2.0 - ItemSize / 2.0, e.y, ItemSize, ItemSize, ItemSpeed, ScoreItem, false)
  }

  /** What the enemy pass of one frame produces. */
  datatype PassResult = PassResult(enemies: seq<Enemy>, bullets: seq<Bullet>, effects: seq<Effect>,
                                   drops: seq<Item>, kills: nat, contacts: nat, dealt: nat)

  /** The enemy pass: the enemies of `es` in list order, each against the
      bullets the earlier ones left unused. `rolls` holds each enemy's drop roll. */
  function EnemyPass(es: seq<Enemy>, bs: seq<Bullet>, player: Box, rolls: seq<real>,
                     color: Color, sparks: seq<Spark>): (r: PassResult)
    requires |rolls| == |es|
    ensures |r.enemies| == |es| && Grows(bs, r.bullets)
    ensures r.dealt == Consumed(bs, r.bullets)
    ensures r.contacts == Contacts(es, player)
    ensures r.kills <= |es| && |r.drops| <= r.kills
    decreases |es|, 1
  {
    if es == [] then ConsumedNothing(bs); PassResult([], bs, [], [], 0, 0, 0)
    else PassLast(es, bs, player, rolls, color, sparks)
  }

  /** The enemy pass over a non-empty list: the pass over all enemies but the
      last, then the last one against the bullets that pass left unused. */
  function PassLast(es: seq<Enemy>, bs: seq<Bullet>, player: Box, rolls: seq<real>,
                    color: Color, sparks: seq<Spark>): (r: PassResult)
    requires |rolls| == |es| && es != []
    ensures Grows(bs, r.bullets) && r.dealt == Consumed(bs, r.bullets)
    decreases |es|, 0
  {
      var n := |es| - 1;
      var p := EnemyPass(es[..n], bs, player, rolls[..n], color, sparks);
      var e := Hit(es[n], player, p.bullets);
      var t := Advance(es[n]).Bounds();
      var struck := Strike(t, p.bullets);
      StrikeConsumes(t, p.bullets);
      ConsumedChain(bs, p.bullets, struck);
      var killed := e.hp <= 0;
      PassResult(p.enemies + [e], struck,
                 p.effects + StrikeBursts(t, p.bullets, color, sparks),
                 p.drops + (if killed && rolls[n] < DropChance then [Drop(e)] else []),
                 p.kills + (if killed then 1 else 0),
                 p.contacts + (if Colliding(t, player) then 1 else 0),
                 p.dealt + Damage(t, p.bullets))
  }

  /** One more enemy in the pass: the prefix result extended by that enemy's
      encounter with the bullets the prefix left, and the contact damage of the
      longer prefix is the shorter one's followed by this enemy's. */
  lemma EnemyPassStep(es: seq<Enemy>, bs: seq<Bullet>, player: Box, rolls: seq<real>,
                      color: Color, sparks: seq<Spark>, i: nat, h: Health)
    requires |rolls| == |es| && i < |es| && 0 <= h.hp <= MaxHp
    ensures var p := EnemyPass(es[..i], bs, player, rolls[..i], color, sparks);
      var q := EnemyPass(es[..i + 1], bs, player, rolls[..i + 1], color, sparks);
      var e := Hit(es[i], player, p.bullets);
      var t := Advance(es[i]).Bounds();
      && q.enemies == p.enemies + [e]
      && q.bullets == Strike(t, p.bullets)
      && q.effects == p.effects + StrikeBursts(t, p.bullets, color, sparks)
      && q.drops == p.drops + (if e.hp <= 0 && rolls[i] < DropChance then [Drop(e)] else [])
      && q.kills == p.kills + (if e.hp <= 0 then 1 else 0)
      && AfterDamage(h, ContactDamage * q.contacts)
         == AfterDamage(AfterDamage(h, ContactDamage * p.contacts), if Colliding(t, player) then ContactDamage else 0)
  {
    assert es[..i + 1][..i] == es[..i];
    assert rolls[..i + 1][..i] == rolls[..i];
    var p := EnemyPass(es[..i], bs, player, rolls[..i], color, sparks);
    var t := Advance(es[i]).Bounds();
    DamageComposes(h, ContactDamage * p.contacts, if Colliding(t, player) then ContactDamage else 0);
  }

  /** The enemy pass only flips bullets from unused to used; the damage it
      deals is the damage of the bullets it flips, each counted once, and so
      never more than the unused bullets carried. */
  lemma EnemyPassSpendsEachBulletOnce(es: seq<Enemy>, bs: seq<Bullet>, player: Box, rolls: seq<real>,
                                      color: Color, sparks: seq<Spark>)
    requires |rolls| == |es|
    ensures var r := EnemyPass(es, bs, player, rolls, color, sparks);
      && Grows(bs, r.bullets)
      && r.dealt == Consumed(bs, r.bullets)
      && r.dealt <= Carried(bs)
  {
    var r := EnemyPass(es, bs, player, rolls, color, sparks);
    ConsumedBounded(bs, r.bullets);
  }

  /** The boss followed by the enemy pass of the same frame: together they deal
      exactly the damage of the bullets flipped to used, so no bullet lowers the
      hit points of both the boss and an enemy, or of two enemies, and the total
      never exceeds what the unused bullets carried. */
  lemma BossThenEnemyPass(t: Box, es: seq<Enemy>, bs: seq<Bullet>, player: Box, rolls: seq<real>,
                          color: Color, sparks: seq<Spark>)
    requires |rolls| == |es|
    ensures var p := EnemyPass(es, Strike(t, bs), player, rolls, color, sparks);
      && Grows(bs, p.bullets)
      && Damage(t, bs) + p.dealt == Consumed(bs, p.bullets)
      && Damage(t, bs) + p.dealt <= Carried(bs)
  {
    var p := EnemyPass(es, Strike(t, bs), player, rolls, color, sparks);
    StrikeConsumes(t, bs);
    ConsumedChain(bs, Strike(t, bs), p.bullets);
    ConsumedBounded(bs, p.bullets);
  }

  /** When no enemy entered the pass destroyed, the kills of the pass are
      exactly the enemies it leaves destroyed. */
  lemma {:induction false} KillsAreDestroyed(es: seq<Enemy>, bs: seq<Bullet>, player: Box, rolls: seq<real>,
                                             color: Color, sparks: seq<Spark>)
    requires |rolls| == |es|
    requires forall k :: 0 <= k < |es| ==> !es[k].destroyed
    ensures EnemyPass(es, bs, player, rolls, color, sparks).kills
         == Destroyed(EnemyPass(es, bs, player, rolls, color, sparks).enemies)
    decreases |es|
  {
    if es != [] {
      var n := |es| - 1;
      KillsAreDestroyed(es[..n], bs, player, rolls[..n], color, sparks);
      var p := EnemyPass(es[..n], bs, player, rolls[..n], color, sparks);
      var r := PassLast(es, bs, player, rolls, color, sparks);
      assert r.enemies[..n] == p.enemies;
    }
  }
}
