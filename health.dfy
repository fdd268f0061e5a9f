/** The player's health rules: damage clamps at zero and latches game over,
    healing clamps at the maximum. */
module Health {
  import opened Entities

  /** The player's hit points together with the game-over latch. */
  datatype Health = Health(hp: int, over: bool)

  /** Health after one call of the damage routine with `d` points. */
  function AfterDamage(h: Health, d: nat): (r: Health)
    requires 0 <= h.hp <= MaxHp
    ensures 0 <= r.hp <= h.hp
    ensures h.over ==> r == h
    ensures !h.over ==> (r.over <==> d >= h.hp)
    ensures !r.over ==> r.hp == h.hp - d
    ensures r.over && !h.over ==> r.hp == 0
  {
    if h.over then h
    else
      var hp := if h.hp - d < 0 then 0 else h.hp - d;
      Health(hp, hp <= 0)
  }

  /** Two damage calls in a row have the effect of one call with their sum. */
  lemma DamageComposes(h: Health, a: nat, b: nat)
    requires 0 <= h.hp <= MaxHp
    ensures AfterDamage(AfterDamage(h, a), b) == AfterDamage(h, a + b)
  {
  }

  /** Once the latch is set no further damage changes anything. */
  lemma {:induction false} GameOverIsSticky(h: Health, ds: seq<nat>)
    requires 0 <= h.hp <= MaxHp
    requires h.over
    ensures AfterDamageAll(h, ds) == h
  {
    if ds != [] {
      GameOverIsSticky(AfterDamage(h, ds[0]), ds[1..]);
    }
  }

  /** Health after a sequence of damage calls. */
  function AfterDamageAll(h: Health, ds: seq<nat>): (r: Health)
    requires 0 <= h.hp <= MaxHp
    requires h.hp == 0 ==> h.over
    ensures 0 <= r.hp <= h.hp
    ensures r.over <==> h.over || r.hp == 0
    decreases |ds|
  {
    if ds == [] then h else AfterDamageAll(AfterDamage(h, ds[0]), ds[1..])
  }

  /** Hit points after healing by `amount`: capped at the maximum, never lowered. */
  function Healed(hp: int, amount: nat): (r: int)
    requires hp <= MaxHp
    ensures hp <= r <= MaxHp
    ensures r == hp + amount || r == MaxHp
    ensures r < MaxHp ==> r == hp + amount
  {
    if hp + amount > MaxHp then MaxHp else hp + amount
  }
}
