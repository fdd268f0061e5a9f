/** The records the game keeps in its lists: player bullets, enemy bullets,
    enemies, items and visual effects, with the constants they are made from,
    and the list filter that every cleanup pass uses. */
module Entities {
  import opened Geometry

  // Player
  const PlayerWidth: real := 40.0
  const PlayerHeight: real := 40.0
  const PlayerSpeed: real := 5.0
  const PlayerStartX: real := 180.0
  const PlayerStartY: real := 550.0
  const MaxHp: int := 100

  // Player bullets
  const PlayerBulletDamage: nat := 10
  const PlayerBulletWidth: real := 4.0
  const PlayerBulletHeight: real := 10.0
  const PlayerBulletSpeed: real := 7.0

  // Enemies and their bullets
  const EnemyWidth: real := 40.0
  const EnemyHeight: real := 40.0
  const NormalBaseHp: nat := 10
  const TankerBaseHp: nat := 30
  const SpeedsterBaseHp: nat := 5
  const ContactDamage: nat := 10
  const EnemyBulletDamage: nat := 20
  const EnemyBulletWidth: real := 4.0
  const EnemyBulletHeight: real := 10.0
  const DropChance: real := 0.3

  // Items
  const ItemSize: real := 12.0
  const ItemSpeed: real := 2.0
  const ScoreItemBonus: int := 10
  const HealAmount: nat := 30

  // Effects
  const EffectLife: int := 30
  const ParticlesPerBurst: nat := 10

  datatype EnemyKind = Normal | Tanker | Speedster
  datatype ItemKind = ScoreItem | HpItem
  /** The colour of an effect burst: the boss explosion is yellow, every other
      burst gets a random hue. */
  datatype Color = Yellow | Hue(degrees: real)

  datatype Bullet = Bullet(x: real, y: real, width: real, height: real, speed: real,
                           damage: nat, hit: bool)
  {
    function Bounds(): Box { Box(x, y, width, height) }
  }

  /** An enemy or boss bullet; a boss bullet moves along (dx, dy), an ordinary
      one straight down at `speed`. */
  datatype EnemyBullet = EnemyBullet(x: real, y: real, width: real, height: real, speed: real,
                                     dx: real, dy: real, damage: nat, isBossBullet: bool, hit: bool)
  {
    function Bounds(): Box { Box(x, y, width, height) }
  }

  datatype Enemy = Enemy(x: real, y: real, width: real, height: real, speed: real,
                         hp: int, maxHp: int, kind: EnemyKind, destroyed: bool)
  {
    function Bounds(): Box { Box(x, y, width, height) }
  }

  datatype Item = Item(x: real, y: real, width: real, height: real, speed: real,
                       kind: ItemKind, collected: bool)
  {
    function Bounds(): Box { Box(x, y, width, height) }
  }

  datatype Effect = Effect(x: real, y: real, dx: real, dy: real, radius: real,
                           life: int, color: Color)

  /** The random part of one particle: its velocity and radius. */
  datatype Spark = Spark(dx: real, dy: real, radius: real)

  /** The particles of one explosion at (x, y), one per spark, all with a full life. */
  function Burst(x: real, y: real, color: Color, sparks: seq<Spark>): (r: seq<Effect>)
    ensures |r| == |sparks|
    ensures forall k :: 0 <= k < |r| ==>
      r[k] == Effect(x, y, sparks[k].dx, sparks[k].dy, sparks[k].radius, EffectLife, color)
  {
    seq(|sparks|, k requires 0 <= k < |sparks| =>
      Effect(x, y, sparks[k].dx, sparks[k].dy, sparks[k].radius, EffectLife, color))
  }

  /** `n` copies of the same burst, back to back. */
  function Bursts(n: nat, burst: seq<Effect>): (r: seq<Effect>)
    ensures |r| == n * |burst|
  {
    if n == 0 then [] else Bursts(n - 1, burst) + burst
  }

  /** The elements of `s` that `keep` accepts, in their original order
      (the behaviour of the array `filter` used by every cleanup pass). */
  function Filter<T>(s: seq<T>, keep: T -> bool): (r: seq<T>)
    ensures |r| <= |s|
    ensures forall k :: 0 <= k < |r| ==> keep(r[k])
    decreases |s|, 1
  {
    if s == [] then [] else FilterOn(s, keep)
  }

  /** The filter of a non-empty sequence: its head if kept, then the filter of its tail. */
  function FilterOn<T>(s: seq<T>, keep: T -> bool): (r: seq<T>)
    requires s != []
    ensures |r| <= |s|
    ensures forall k :: 0 <= k < |r| ==> keep(r[k])
    decreases |s|, 0
  {
    if keep(s[0]) then [s[0]] + Filter(s[1..], keep)
    else Filter(s[1..], keep)
  }

  /** The filter keeps exactly the accepted elements: every element of the
      result comes from `s`, and every accepted element of `s` is in the result. */
  lemma {:induction false} FilterMembers<T>(s: seq<T>, keep: T -> bool)
    ensures forall k :: 0 <= k < |Filter(s, keep)| ==> Filter(s, keep)[k] in s
    ensures forall k :: 0 <= k < |s| && keep(s[k]) ==> s[k] in Filter(s, keep)
  {
    if s != [] {
      FilterMembers(s[1..], keep);
      var r := Filter(s[1..], keep);
      if keep(s[0]) {
        assert Filter(s, keep) == [s[0]] + r;
        forall k | 0 <= k < |Filter(s, keep)|
          ensures Filter(s, keep)[k] in s
        {
          if k > 0 {
            assert Filter(s, keep)[k] == r[k - 1];
            assert r[k - 1] in s[1..];
          }
        }
      } else {
        assert Filter(s, keep) == r;
        forall k | 0 <= k < |Filter(s, keep)|
          ensures Filter(s, keep)[k] in s
        {
          assert r[k] in s[1..];
        }
      }
      forall k | 0 <= k < |s| && keep(s[k])
        ensures s[k] in Filter(s, keep)
      {
        if k > 0 {
          assert s[k] == s[1..][k - 1];
        }
      }
    }
  }

  /** Filtering a concatenation filters each part: order is preserved. */
  lemma {:induction false} FilterAppend<T>(s: seq<T>, t: seq<T>, keep: T -> bool)
    ensures Filter(s + t, keep) == Filter(s, keep) + Filter(t, keep)
  {
    if s == [] {
      assert s + t == t;
    } else {
      assert (s + t)[1..] == s[1..] + t;
      FilterAppend(s[1..], t, keep);
    }
  }

  /** Filtering twice with the same test is filtering once. */
  lemma {:induction false} FilterIdempotent<T>(s: seq<T>, keep: T -> bool)
    ensures Filter(Filter(s, keep), keep) == Filter(s, keep)
  {
    if s != [] {
      FilterIdempotent(s[1..], keep);
      if keep(s[0]) {
        assert ([s[0]] + Filter(s[1..], keep))[1..] == Filter(s[1..], keep);
      }
    }
  }

  /** Filtering a prefix one element longer adds that element iff it is kept. */
  lemma FilterSnoc<T>(s: seq<T>, i: nat, keep: T -> bool)
    requires i < |s|
    ensures Filter(s[..i + 1], keep) == Filter(s[..i], keep) + (if keep(s[i]) then [s[i]] else [])
  {
    assert s[..i + 1] == s[..i] + [s[i]];
    FilterAppend(s[..i], [s[i]], keep);
    assert [s[i]][1..] == [];
  }

  /** Replacing the first element of the unprocessed suffix moves it to the processed prefix. */
  lemma Splice<T>(a: seq<T>, x: T, s: seq<T>, i: nat)
    requires |a| == i < |s|
    ensures (a + s[i..])[i := x] == (a + [x]) + s[i + 1..]
  {
    assert s[i..] == [s[i]] + s[i + 1..];
  }

  lemma AppendAssoc<T>(a: seq<T>, b: seq<T>, c: seq<T>)
    ensures (a + b) + c == a + (b + c)
  {
  }
}
