/** Ball entities and the construction of a new ball by `spawnBall`. */
module Entities {
  import opened Num
  import opened Catalog
  import opened Difficulty

  /** One remembered position of a ball, with its opacity. */
  datatype TrailPt = TrailPt(x: real, y: real, a: real)

  /** A live ball. Lengths, speeds and gravity are in the current display
      scale; restitution, friction and drag are dimensionless. */
  datatype Ball = Ball(
    kind: BallTypeId,
    x: real, y: real, r: real,
    vx: real, vy: real,
    rest: real, fric: real, drag: real, g: real,
    flowDir: int,
    trailLen: nat,
    trail: seq<TrailPt>)

  /** A ball drifts left or right for its whole life, and its trail holds
      exactly its capacity of points. */
  predicate WellFormed(b: Ball)
  {
    (b.flowDir == -1 || b.flowDir == 1) && |b.trail| == b.trailLen
  }

  /** Every ball of a list is well formed. */
  predicate AllWellFormed(balls: seq<Ball>)
  {
    forall b :: b in balls ==> WellFormed(b)
  }

  /** The `Math.random()` draws one spawn consumes, one field per call site
      in `spawnBall`. `low` serves whichever branch of the altitude choice is
      taken; the drop-mode and sweep-mode draws are only read in their mode. */
  datatype SpawnDraws = SpawnDraws(
    kind: Draw, r: Draw, rest: Draw, fric: Draw, drag: Draw,
    roll: Draw,
    dropX: Draw, dropFlow: Draw,
    side: Draw, lowPick: Draw, low: Draw, jitter: Draw, vyJitter: Draw,
    g: Draw)

  /** One `Math.random()` value, in [0, 1). */
  type Draw = u: real | 0.0 <= u < 1.0

  /** Probability of the drop mode: droppers favour it more as difficulty rises. */
  function PreferDrop(ty: BallType, t: real): real
  {
    if ty.id == Dropper then Lerp(0.2, 0.62, t) else Lerp(0.18, 0.38, t)
  }

  /** Whether the spawn with these draws uses the drop mode. */
  predicate IsDrop(scoreSec: int, d: SpawnDraws)
  {
    d.roll < PreferDrop(BallTypes[PickIndex(d.kind)], DifficultyT(scoreSec))
  }

  /** The ball `spawnBall(scoreSec)` builds from its draws, where p is
      `currentParams(scoreSec)`, for a world of width w and ground line
      groundY: its kind and trail come from the type the roulette picks,
      and its trail starts filled with its own position. Its ranges and
      where it appears are stated by `NewBallRanges` and `NewBallPlacement`. */
  function NewBall(p: Params, scale: real, w: int, groundY: int, d: SpawnDraws): (b: Ball)
    ensures WellFormed(b)
    ensures b.kind == BallTypes[PickIndex(d.kind)].id
    ensures b.trailLen == BallTypes[PickIndex(d.kind)].trailLen
    ensures forall i :: 0 <= i < |b.trail| ==> b.trail[i] == TrailPt(b.x, b.y, 0.0)
  {
    var ty := BallTypes[PickIndex(d.kind)];
    var r := Scaled(Lerp(ty.rMin, ty.rMax, d.r), scale);
    var m := Motion(ty, p.t, p.baseSpeed, scale, w, groundY, r, d);
    Ball(ty.id, m.x, m.y, r, m.vx, m.vy,
         Lerp(ty.restMin, ty.restMax, d.rest), Lerp(ty.fricMin, ty.fricMax, d.fric),
         Lerp(ty.dragMin, ty.dragMax, d.drag), Scaled(Lerp(ty.gMin, ty.gMax, d.g), scale) + p.gAdd,
         m.flowDir, ty.trailLen, seq(ty.trailLen, _ => TrailPt(m.x, m.y, 0.0)))
  }

  /** A new ball's bounces, friction and drag lie in its type's ranges, and
      at a non-negative scale so do its radius and its base gravity, to
      which the difficulty's extra gravity is added. */
  lemma NewBallRanges(scoreSec: int, scale: real, w: int, groundY: int, d: SpawnDraws)
    ensures var b := NewBall(CurrentParams(scoreSec, scale), scale, w, groundY, d);
      var ty := BallTypes[PickIndex(d.kind)];
      ty.restMin <= b.rest <= ty.restMax && ty.fricMin <= b.fric <= ty.fricMax &&
      ty.dragMin <= b.drag <= ty.dragMax
    ensures var b := NewBall(CurrentParams(scoreSec, scale), scale, w, groundY, d);
      scale >= 0.0 ==> var ty := BallTypes[PickIndex(d.kind)];
      Scaled(ty.rMin, scale) <= b.r <= Scaled(ty.rMax, scale) &&
      Scaled(ty.gMin, scale) <= b.g
    // the base gravity in the type's range, plus the difficulty's extra gravity
    ensures var b := NewBall(CurrentParams(scoreSec, scale), scale, w, groundY, d);
      scale >= 0.0 ==> var ty := BallTypes[PickIndex(d.kind)]; var gAdd := CurrentParams(scoreSec, scale).gAdd;
      Scaled(ty.gMin, scale) + gAdd <= b.g <= Scaled(ty.gMax, scale) + gAdd
  {
    var ty := BallTypes[PickIndex(d.kind)];
    CatalogSane(PickIndex(d.kind));
    if scale >= 0.0 {
      ScaledMonotone(ty.rMin, Lerp(ty.rMin, ty.rMax, d.r), scale);
      ScaledMonotone(Lerp(ty.rMin, ty.rMax, d.r), ty.rMax, scale);
      ScaledMonotone(ty.gMin, Lerp(ty.gMin, ty.gMax, d.g), scale);
      ScaledMonotone(Lerp(ty.gMin, ty.gMax, d.g), ty.gMax, scale);
    }
  }

  /** Where a new ball appears. A drop-mode ball starts above the top edge,
      70 scaled units in from both sides, falling and drifting along its
      flow; a sweep-mode ball starts just
      outside the side it flows in from, moving inwards, at most 170 scaled
      units above resting on the ground. */
  lemma NewBallPlacement(scoreSec: int, scale: real, w: int, groundY: int, d: SpawnDraws)
    // drop mode: above the top edge, falling
    ensures var b := NewBall(CurrentParams(scoreSec, scale), scale, w, groundY, d);
      scale >= 0.0 && IsDrop(scoreSec, d) ==>
      b.y < 0.0 && b.vy > 0.0 && b.vx * b.flowDir as real > 0.0
    // sweep mode: just outside a side edge, moving inward along its flow
    ensures var b := NewBall(CurrentParams(scoreSec, scale), scale, w, groundY, d);
      scale >= 0.0 && !IsDrop(scoreSec, d) ==>
      (b.flowDir == 1 && b.x < 0.0 && b.vx > 0.0) ||
      (b.flowDir == -1 && b.x > w as real && b.vx < 0.0)
    ensures var b := NewBall(CurrentParams(scoreSec, scale), scale, w, groundY, d);
      scale >= 0.0 && !IsDrop(scoreSec, d) ==>
      groundY as real - b.r - Scaled(170.0, scale) <= b.y <= groundY as real - b.r
    // drop mode: 70 scaled units in from both side edges
    ensures var b := NewBall(CurrentParams(scoreSec, scale), scale, w, groundY, d);
      IsDrop(scoreSec, d) && Scaled(140.0, scale) <= w as real ==>
      Scaled(70.0, scale) <= b.x <= w as real - Scaled(70.0, scale)
  {
    var ty := BallTypes[PickIndex(d.kind)];
    CatalogSane(PickIndex(d.kind));
    var p := CurrentParams(scoreSec, scale);
    var r := Scaled(Lerp(ty.rMin, ty.rMax, d.r), scale);
    if scale >= 0.0 {
      ScaledNonneg(Lerp(ty.rMin, ty.rMax, d.r), scale);
    }
    SpawnFacts(ty, p.t, p.baseSpeed, scale, w, groundY, r, d);
  }

  /** Initial position, velocity and flow direction of a spawn. */
  datatype Launch = Launch(x: real, y: real, vx: real, vy: real, flowDir: int)

  /** The two spawn modes of `spawnBall`: drop from above the top edge, or
      sweep in from a side edge at low altitude. */
  function Motion(ty: BallType, t: real, baseSpeed: real, scale: real,
                  w: int, groundY: int, r: real, d: SpawnDraws): Launch
  {
    if d.roll < PreferDrop(ty, t) then
      var flowDir := if d.dropFlow < 0.5 then -1 else 1;
      Launch(
        Scaled(70.0, scale) + d.dropX * (w as real - Scaled(140.0, scale)),
        -r - Scaled(50.0, scale),
        Scaled(flowDir as real * Lerp(120.0, 240.0, t) * ty.vxScale, scale),
        Scaled(Lerp(80.0, 190.0, t) * ty.vyScale, scale),
        flowDir)
    else
      var fromLeft := d.side < 0.5;
      var flowDir := if fromLeft then 1 else -1;
      var low :=
        if d.lowPick < Lerp(0.88, 0.75, t) then d.low * Scaled(90.0, scale)
        else Scaled(90.0, scale) + d.low * Scaled(80.0, scale);
      Launch(
        if fromLeft then -r - Scaled(50.0, scale) else w as real + r + Scaled(50.0, scale),
        groundY as real - r - low,
        flowDir as real * (baseSpeed + d.jitter * Scaled(Lerp(140.0, 260.0, t), scale)) * ty.vxScale,
        Scaled((-60.0 + d.vyJitter * 120.0) * ty.vyScale * 0.55, scale),
        flowDir)
  }

  lemma SpawnFacts(ty: BallType, t: real, baseSpeed: real, scale: real,
                   w: int, groundY: int, r: real, d: SpawnDraws)
    requires Sane(ty) && 0.0 <= t <= 1.0
    requires scale >= 0.0 ==> baseSpeed > 0.0 && r > 0.0
    ensures var m := Motion(ty, t, baseSpeed, scale, w, groundY, r, d);
      m.flowDir == -1 || m.flowDir == 1
    ensures var m := Motion(ty, t, baseSpeed, scale, w, groundY, r, d);
      scale >= 0.0 && d.roll < PreferDrop(ty, t) ==>
        m.y < 0.0 && m.vy > 0.0 && m.vx * m.flowDir as real > 0.0
    ensures var m := Motion(ty, t, baseSpeed, scale, w, groundY, r, d);
      scale >= 0.0 && !(d.roll < PreferDrop(ty, t)) ==>
        ((m.flowDir == 1 && m.x < 0.0 && m.vx > 0.0) ||
         (m.flowDir == -1 && m.x > w as real && m.vx < 0.0)) &&
        groundY as real - r - Scaled(170.0, scale) <= m.y <= groundY as real - r
    ensures var m := Motion(ty, t, baseSpeed, scale, w, groundY, r, d);
      d.roll < PreferDrop(ty, t) && Scaled(140.0, scale) <= w as real ==>
        Scaled(70.0, scale) <= m.x <= w as real - Scaled(70.0, scale)
  {
    if d.roll < PreferDrop(ty, t) && Scaled(140.0, scale) <= w as real {
      DropInset(d.dropX, w as real, scale);
    }
    if scale >= 0.0 {
      if d.roll < PreferDrop(ty, t) {
        DropFacts(ty, t, scale, w, r, d);
      } else {
        SweepFacts(ty, t, baseSpeed, scale, w, groundY, r, d);
      }
    }
  }

  /** The drop-mode x, `70 * sc + u * (w - 140 * sc)`, keeps 70 scaled units
      from both edges when the world is at least 140 scaled units wide. */
  lemma DropInset(u: real, w: real, scale: real)
    requires 0.0 <= u < 1.0 && Scaled(140.0, scale) <= w
    ensures Scaled(70.0, scale) <= Scaled(70.0, scale) + u * (w - Scaled(140.0, scale)) <= w - Scaled(70.0, scale)
  {
    var span := w - Scaled(140.0, scale);
    MulNonneg(u, span);
    MulNonneg(1.0 - u, span);
    assert (1.0 - u) * span == span - u * span;
  }

  lemma DropFacts(ty: BallType, t: real, scale: real, w: int, r: real, d: SpawnDraws)
    requires Sane(ty) && 0.0 <= t <= 1.0
    requires scale >= 0.0 && r > 0.0
    ensures var flowDir := if d.dropFlow < 0.5 then -1 else 1;
      -r - Scaled(50.0, scale) < 0.0 &&
      Scaled(Lerp(80.0, 190.0, t) * ty.vyScale, scale) > 0.0 &&
      Scaled(flowDir as real * Lerp(120.0, 240.0, t) * ty.vxScale, scale) * flowDir as real > 0.0
  {
    ScaledNonneg(50.0, scale);
    MulPos(Lerp(80.0, 190.0, t), ty.vyScale);
    ScaledNonneg(Lerp(80.0, 190.0, t) * ty.vyScale, scale);
    var s := Lerp(120.0, 240.0, t) * ty.vxScale;
    MulPos(Lerp(120.0, 240.0, t), ty.vxScale);
    ScaledNonneg(s, scale);
    var k := ScaleOr1(scale);
    if d.dropFlow < 0.5 {
      assert (-1.0 * Lerp(120.0, 240.0, t)) * ty.vxScale == -s;
      assert Scaled(-s, scale) == -(s * k);
    } else {
      assert (1.0 * Lerp(120.0, 240.0, t)) * ty.vxScale == s;
    }
  }

  lemma SweepFacts(ty: BallType, t: real, baseSpeed: real, scale: real,
                   w: int, groundY: int, r: real, d: SpawnDraws)
    requires Sane(ty) && 0.0 <= t <= 1.0
    requires scale >= 0.0 && baseSpeed > 0.0 && r > 0.0
    requires !(d.roll < PreferDrop(ty, t))
    ensures var m := Motion(ty, t, baseSpeed, scale, w, groundY, r, d);
        ((m.flowDir == 1 && m.x < 0.0 && m.vx > 0.0) ||
         (m.flowDir == -1 && m.x > w as real && m.vx < 0.0)) &&
        groundY as real - r - Scaled(170.0, scale) <= m.y <= groundY as real - r
  {
    SweepSide(ty, t, baseSpeed, scale, w, groundY, r, d);
    SweepAltitude(ty, t, baseSpeed, scale, w, groundY, r, d);
  }

  lemma SweepSide(ty: BallType, t: real, baseSpeed: real, scale: real,
                  w: int, groundY: int, r: real, d: SpawnDraws)
    requires Sane(ty) && 0.0 <= t <= 1.0
    requires scale >= 0.0 && baseSpeed > 0.0 && r > 0.0
    requires !(d.roll < PreferDrop(ty, t))
    ensures var m := Motion(ty, t, baseSpeed, scale, w, groundY, r, d);
        (m.flowDir == 1 && m.x < 0.0 && m.vx > 0.0) ||
        (m.flowDir == -1 && m.x > w as real && m.vx < 0.0)
  {
    var m := Motion(ty, t, baseSpeed, scale, w, groundY, r, d);
    ScaledNonneg(50.0, scale);
    var speed := baseSpeed + d.jitter * Scaled(Lerp(140.0, 260.0, t), scale);
    SweepSpeed(ty, t, baseSpeed, scale, d.jitter);
    if d.side < 0.5 {
      assert m.vx == 1.0 * speed * ty.vxScale;
    } else {
      assert m.vx == -1.0 * speed * ty.vxScale;
    }
  }

  lemma SweepAltitude(ty: BallType, t: real, baseSpeed: real, scale: real,
                      w: int, groundY: int, r: real, d: SpawnDraws)
    requires scale >= 0.0
    requires !(d.roll < PreferDrop(ty, t))
    ensures var m := Motion(ty, t, baseSpeed, scale, w, groundY, r, d);
        groundY as real - r - Scaled(170.0, scale) <= m.y <= groundY as real - r
  {
    var m := Motion(ty, t, baseSpeed, scale, w, groundY, r, d);
    var s90, s80 := Scaled(90.0, scale), Scaled(80.0, scale);
    ScaledNonneg(90.0, scale);
    ScaledNonneg(80.0, scale);
    assert s90 + s80 == Scaled(170.0, scale);
    var low := if d.lowPick < Lerp(0.88, 0.75, t) then d.low * s90 else s90 + d.low * s80;
    LowBounds(s90, s80, d.low, d.lowPick < Lerp(0.88, 0.75, t));
    assert m.y == groundY as real - r - low;
  }

  /** Both altitude choices of the sweep mode lie in [0, a + b]. */
  lemma LowBounds(a: real, b: real, u: real, near: bool)
    requires 0.0 <= a && 0.0 <= b && 0.0 <= u < 1.0
    ensures 0.0 <= (if near then u * a else a + u * b) <= a + b
  {
    MulNonneg(u, a);
    MulNonneg(u, b);
    MulNonneg(1.0 - u, a);
    assert (1.0 - u) * a == a - u * a;
    MulNonneg(1.0 - u, b);
    assert (1.0 - u) * b == b - u * b;
  }

  lemma SweepSpeed(ty: BallType, t: real, baseSpeed: real, scale: real, jitter: real)
    requires Sane(ty) && 0.0 <= t <= 1.0 && scale >= 0.0 && baseSpeed > 0.0 && 0.0 <= jitter < 1.0
    ensures (baseSpeed + jitter * Scaled(Lerp(140.0, 260.0, t), scale)) * ty.vxScale > 0.0
  {
    ScaledNonneg(Lerp(140.0, 260.0, t), scale);
    MulNonneg(jitter, Scaled(Lerp(140.0, 260.0, t), scale));
    MulPos(baseSpeed + jitter * Scaled(Lerp(140.0, 260.0, t), scale), ty.vxScale);
  }
}
