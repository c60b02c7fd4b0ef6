/** The five ball archetypes and the weighted (roulette) choice among them. */
module Catalog {

  datatype BallTypeId = TinyFast | BigSlow | Bouncer | Dropper | Sniper

  /** One archetype: closed ranges sampled at spawn time, velocity multipliers,
      trail capacity and selection weight. */
  datatype BallType = BallType(
    id: BallTypeId,
    rMin: real, rMax: real,
    trailLen: nat,
    restMin: real, restMax: real,
    fricMin: real, fricMax: real,
    dragMin: real, dragMax: real,
    gMin: real, gMax: real,
    vxScale: real, vyScale: real,
    weight: real)

  const BallTypes: seq<BallType> := [
    BallType(TinyFast, 8.0, 13.0, 18, 0.82, 0.92, 0.01, 0.05, 0.0012, 0.0035, 1600.0, 2200.0, 1.35, 1.0, 30.0),
    BallType(BigSlow, 18.0, 28.0, 12, 0.78, 0.88, 0.02, 0.07, 0.0015, 0.0045, 1500.0, 2100.0, 0.9, 0.9, 18.0),
    BallType(Bouncer, 12.0, 18.0, 20, 0.9, 0.97, 0.01, 0.05, 0.001, 0.003, 1400.0, 2000.0, 1.05, 1.25, 16.0),
    BallType(Dropper, 10.0, 16.0, 16, 0.84, 0.93, 0.01, 0.06, 0.0012, 0.0038, 1900.0, 2600.0, 0.85, 1.35, 22.0),
    BallType(Sniper, 9.0, 14.0, 14, 0.8, 0.9, 0.01, 0.05, 0.0009, 0.0026, 1500.0, 2200.0, 1.6, 0.85, 14.0)
  ]

  /** Every range of every archetype is well ordered and every value is
      positive; restitution and friction are below 1. */
  predicate Sane(ty: BallType)
  {
    0.0 < ty.rMin <= ty.rMax && 0 < ty.trailLen &&
    0.0 <= ty.restMin <= ty.restMax < 1.0 &&
    0.0 <= ty.fricMin <= ty.fricMax < 1.0 &&
    0.0 <= ty.dragMin <= ty.dragMax &&
    0.0 < ty.gMin <= ty.gMax &&
    0.0 < ty.vxScale && 0.0 < ty.vyScale && 0.0 < ty.weight
  }

  lemma CatalogSane(k: nat)
    requires k < |BallTypes|
    ensures Sane(BallTypes[k])
  {
  }

  /** Sum of the weights of the first k archetypes. */
  function Cum(k: nat): real
    requires k <= |BallTypes|
  {
    if k == 0 then 0.0 else Cum(k - 1) + BallTypes[k - 1].weight
  }

  /** The weights sum to 100 (the `reduce` in `pickBallType`), and the
      running sums are 0, 30, 48, 64, 86, 100. */
  lemma CumValues()
    ensures Cum(0) == 0.0 && Cum(1) == 30.0 && Cum(2) == 48.0
    ensures Cum(3) == 64.0 && Cum(4) == 86.0 && Cum(5) == 100.0
  {
    assert Cum(1) == 30.0;
    assert Cum(2) == 48.0;
    assert Cum(3) == 64.0;
    assert Cum(4) == 86.0;
  }

  /** The roulette slot of archetype k: draws scaled to [0, 100) that land in
      it select k. Slot 0 also holds the draw 0. */
  predicate InSlot(x: real, k: nat)
    requires k < |BallTypes|
  {
    (k == 0 || Cum(k) < x) && x <= Cum(k + 1)
  }

  /** The accumulator loop of `pickBallType` with n archetypes still to try,
      the next one at position |BallTypes| - n: subtract weights in catalog
      order and return the first archetype that brings the remainder to 0 or
      below; fall back to the first archetype when the catalog is exhausted. */
  function Roulette(r: real, n: nat): (k: nat)
    requires n <= |BallTypes|
    ensures k < |BallTypes|
  {
    if n == 0 then 0
    else
      var i := |BallTypes| - n;
      if r - BallTypes[i].weight <= 0.0 then i
      else Roulette(r - BallTypes[i].weight, n - 1)
  }

  /** The archetype index chosen for the uniform draw `u` (`Math.random()`). */
  function PickIndex(u: real): (k: nat)
    ensures k < |BallTypes|
  {
    Roulette(u * Cum(|BallTypes|), |BallTypes|)
  }

  /** Starting from position i with the remainder x - Cum(i), the loop stops at
      the first slot at or after i that covers x. */
  lemma {:induction false} RouletteFinds(x: real, i: nat)
    requires i < |BallTypes|
    requires x <= Cum(|BallTypes|)
    requires i == 0 || Cum(i) < x
    ensures var k := Roulette(x - Cum(i), |BallTypes| - i); i <= k && InSlot(x, k)
    decreases |BallTypes| - i
  {
    CumValues();
    if x - Cum(i) - BallTypes[i].weight <= 0.0 {
    } else {
      assert x - Cum(i) - BallTypes[i].weight == x - Cum(i + 1);
      RouletteFinds(x, i + 1);
    }
  }

  /** The slots are disjoint: no draw lies in two of them. */
  lemma SlotsDisjoint(x: real, j: nat, k: nat)
    requires j < |BallTypes| && k < |BallTypes|
    requires InSlot(x, j) && InSlot(x, k)
    ensures j == k
  {
    CumValues();
  }

  /** Roulette selection: for a draw in [0, 1) archetype k is chosen exactly
      when 100 * u lies in its slot, so k is chosen with probability
      weight / 100, and the fallback return is never taken. */
  lemma PickIndexSlot(u: real, k: nat)
    requires 0.0 <= u < 1.0
    requires k < |BallTypes|
    ensures PickIndex(u) == k <==> InSlot(u * 100.0, k)
  {
    CumValues();
    var x := u * 100.0;
    assert x <= Cum(|BallTypes|);
    RouletteFinds(x, 0);
    var p := PickIndex(u);
    assert InSlot(x, p);
    if InSlot(x, k) {
      SlotsDisjoint(x, p, k);
    }
  }

  /** The fallback `return BALL_TYPES[0]` after the loop is unreachable: for
      every draw in [0, 1] the loop itself returns an archetype whose slot
      holds the draw. */
  lemma FallbackUnreachable(u: real)
    requires 0.0 <= u <= 1.0
    ensures InSlot(u * Cum(|BallTypes|), PickIndex(u))
  {
    CumValues();
    RouletteFinds(u * Cum(|BallTypes|), 0);
  }

  /** `pickBallType` with its draw `u` passed in: sums the weights, scales the
      draw and walks the catalog subtracting weights. */
  method PickBallType(u: real) returns (k: nat)
    ensures k == PickIndex(u)
    ensures 0.0 <= u < 1.0 ==> k < |BallTypes| && InSlot(u * 100.0, k)
  {
    var sum := 0.0;
    for j := 0 to |BallTypes|
      invariant sum == Cum(j)
    {
      sum := sum + BallTypes[j].weight;
    }
    assert sum == Cum(|BallTypes|);
    var r := u * sum;
    assert r == u * Cum(|BallTypes|);
    var i := 0;
    assert PickIndex(u) == Roulette(u * Cum(5), 5);
    assert Roulette(r, |BallTypes|) == PickIndex(u);
    while i < |BallTypes|
      invariant i <= |BallTypes|
      invariant Roulette(r, |BallTypes| - i) == PickIndex(u)
      decreases |BallTypes| - i
    {
      r := r - BallTypes[i].weight;
      if r <= 0.0 {
        k := i;
        if 0.0 <= u < 1.0 {
          PickIndexSlot(u, k);
        }
        return;
      }
      i := i + 1;
    }
    k := 0;
    if 0.0 <= u < 1.0 {
      PickIndexSlot(u, k);
    }
  }
}
