/** Player bullets against one target (the boss or an enemy): every bullet
    that overlaps the target and has not hit anything yet deals its damage,
    is flagged as hit and leaves a small explosion. The lemmas show that the
    hit flag makes every bullet count once across all targets of a frame. */
module Combat {
  import opened Geometry
  import opened Entities

  /** `b` strikes target `t` now: it overlaps the target and is still unused. */
  predicate FreshHit(t: Box, b: Bullet)
  {
    Colliding(t, b.Bounds()) && !b.hit
  }

  /** The bullet list after a pass over target `t`. */
  function Strike(t: Box, bs: seq<Bullet>): (r: seq<Bullet>)
    ensures Grows(bs, r)
    ensures forall k :: 0 <= k < |bs| ==> (r[k].hit <==> bs[k].hit || Colliding(t, bs[k].Bounds()))
  {
    seq(|bs|, k requires 0 <= k < |bs| => if FreshHit(t, bs[k]) then bs[k].(hit := true) else bs[k])
  }

  /** The damage a pass over target `t` deals: the sum over the bullets that strike it. */
  function Damage(t: Box, bs: seq<Bullet>): nat
    decreases |bs|
  {
    if bs == [] then 0
    else
      var last := bs[|bs| - 1];
      Damage(t, bs[..|bs| - 1]) + (if FreshHit(t, last) then last.damage else 0)
  }

  /** The explosions a pass over target `t` leaves, one burst per striking bullet, in list order. */
  function StrikeBursts(t: Box, bs: seq<Bullet>, color: Color, sparks: seq<Spark>): (r: seq<Effect>)
    decreases |bs|
  {
    if bs == [] then []
    else
      var last := bs[|bs| - 1];
      StrikeBursts(t, bs[..|bs| - 1], color, sparks)
        + (if FreshHit(t, last) then Burst(last.x, last.y, color, sparks) else [])
  }

  /** `b1` is `b0` with some unused bullets flagged as hit and nothing else changed. */
  predicate Grows(b0: seq<Bullet>, b1: seq<Bullet>)
  {
    && |b0| == |b1|
    && forall k :: 0 <= k < |b0| ==> b1[k] == b0[k] || (!b0[k].hit && b1[k] == b0[k].(hit := true))
  }

  /** Total damage of the bullets that were unused in `b0` and are used in `b1`. */
  function Consumed(b0: seq<Bullet>, b1: seq<Bullet>): nat
    requires |b0| == |b1|
    decreases |b0|
  {
    if b0 == [] then 0
    else
      var n := |b0| - 1;
      Consumed(b0[..n], b1[..n]) + (if !b0[n].hit && b1[n].hit then b0[n].damage else 0)
  }

  /** Passing over a prefix is the prefix of the pass. */
  lemma StrikePrefix(t: Box, bs: seq<Bullet>, n: nat)
    requires n <= |bs|
    ensures Strike(t, bs[..n]) == Strike(t, bs)[..n]
  {
  }

  /** A pass deals exactly the damage of the bullets it uses up. */
  lemma {:induction false} StrikeConsumes(t: Box, bs: seq<Bullet>)
    ensures Damage(t, bs) == Consumed(bs, Strike(t, bs))
  {
    if bs != [] {
      var n := |bs| - 1;
      StrikePrefix(t, bs, n);
      StrikeConsumes(t, bs[..n]);
    }
  }

  /** A second pass over the same target deals nothing: every bullet that
      struck it is now used. */
  lemma {:induction false} NoSecondStrike(t: Box, bs: seq<Bullet>)
    ensures Damage(t, Strike(t, bs)) == 0
  {
    if bs != [] {
      var n := |bs| - 1;
      StrikePrefix(t, bs, n);
      NoSecondStrike(t, bs[..n]);
    }
  }

  lemma GrowsPrefix(b0: seq<Bullet>, b1: seq<Bullet>, n: nat)
    requires Grows(b0, b1) && n <= |b0|
    ensures Grows(b0[..n], b1[..n])
  {
  }

  /** Flagging in two steps is flagging once, and the used-up damage adds up:
      across several targets a bullet's damage is counted once. */
  lemma {:induction false} ConsumedChain(b0: seq<Bullet>, b1: seq<Bullet>, b2: seq<Bullet>)
    requires Grows(b0, b1) && Grows(b1, b2)
    ensures Grows(b0, b2)
    ensures Consumed(b0, b2) == Consumed(b0, b1) + Consumed(b1, b2)
  {
    if b0 != [] {
      var n := |b0| - 1;
      GrowsPrefix(b0, b1, n);
      GrowsPrefix(b1, b2, n);
      ConsumedChain(b0[..n], b1[..n], b2[..n]);
    }
  }

  /** A list compared with itself has used up nothing. */
  lemma {:induction false} ConsumedNothing(bs: seq<Bullet>)
    ensures Consumed(bs, bs) == 0
  {
    if bs != [] {
      ConsumedNothing(bs[..|bs| - 1]);
    }
  }

  /** Damage used up never exceeds the damage the bullets carried. */
  lemma {:induction false} ConsumedBounded(b0: seq<Bullet>, b1: seq<Bullet>)
    requires Grows(b0, b1)
    ensures Consumed(b0, b1) <= Carried(b0)
  {
    if b0 != [] {
      var n := |b0| - 1;
      GrowsPrefix(b0, b1, n);
      ConsumedBounded(b0[..n], b1[..n]);
    }
  }

  /** Total damage carried by the unused bullets of a list. */
  function Carried(bs: seq<Bullet>): nat
    decreases |bs|
  {
    if bs == [] then 0
    else
      var n := |bs| - 1;
      Carried(bs[..n]) + (if !bs[n].hit then bs[n].damage else 0)
  }

  /** Two targets in a row: their damage together is the damage of the bullets
      used up, so no bullet strikes both. */
  lemma SingleUseAcrossTargets(t1: Box, t2: Box, bs: seq<Bullet>)
    ensures Damage(t1, bs) + Damage(t2, Strike(t1, bs)) == Consumed(bs, Strike(t2, Strike(t1, bs)))
    ensures forall k :: 0 <= k < |bs| && FreshHit(t1, bs[k]) ==> !FreshHit(t2, Strike(t1, bs)[k])
  {
    StrikeConsumes(t1, bs);
    StrikeConsumes(t2, Strike(t1, bs));
    ConsumedChain(bs, Strike(t1, bs), Strike(t2, Strike(t1, bs)));
  }
}
