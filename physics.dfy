/** The per-frame ball update of `updateBalls`: wind, gravity, drag and
    position; the floor rule; the trail buffer; off-screen culling. */
module Physics {
  import opened Num
  import opened Entities

  /** Steps 1-4: wind along the ball's flow, gravity, the drag factor `damp`
      (the value of `Math.exp(-drag * 60 * dt)`), then position by the new
      velocity. */
  function Integrate(b: Ball, windA: real, dt: real, damp: real): (n: Ball)
    ensures n.(x := b.x, y := b.y, vx := b.vx, vy := b.vy) == b
    ensures n.x == b.x + n.vx * dt && n.y == b.y + n.vy * dt
    ensures n.vx == (b.vx + b.flowDir as real * windA * dt) * damp
    ensures n.vy == (b.vy + b.g * dt) * damp
  {
    var vx := (b.vx + b.flowDir as real * windA * dt) * damp;
    var vy := (b.vy + b.g * dt) * damp;
    b.(vx := vx, vy := vy, x := b.x + vx * dt, y := b.y + vy * dt)
  }

  /** With no wind, no gravity and no drag a ball moves by exactly its
      velocity times dt and keeps its velocity. */
  lemma FreeFlight(b: Ball, dt: real)
    requires b.g == 0.0
    ensures var n := Integrate(b, 0.0, dt, 1.0);
      n.vx == b.vx && n.vy == b.vy && n.x == b.x + b.vx * dt && n.y == b.y + b.vy * dt
  {
  }

  /** A sweep ball from the left edge at vx = 300 with wind 50 over 0.1 s and
      no drag: the wind adds 5 to vx before the position step, so x advances
      by 30.5. */
  lemma SweepScenario(b: Ball)
    requires b.vx == 300.0 && b.flowDir == 1
    ensures Integrate(b, 50.0, 0.1, 1.0).x == b.x + 30.5
  {
  }

  /** Step 5, the floor rule, applied to a ball whose position is already
      integrated: clamp onto the ground line, reflect a downward velocity with
      the restitution, apply floor friction and keep at least the scaled
      minimum horizontal speed, in the direction of travel or of the flow. */
  function FloorContact(b: Ball, floorY: real, scale: real): (n: Ball)
    ensures b.y <= floorY - b.r ==> n == b
    ensures n.(y := b.y, vx := b.vx, vy := b.vy) == b
    ensures b.y > floorY - b.r ==> n.y == floorY - b.r
    ensures b.y > floorY - b.r && b.vy > 0.0 && b.rest >= 0.0 ==> n.vy <= 0.0
    ensures b.y > floorY - b.r && b.vy > 0.0 ==> n.vy == -b.vy * b.rest
    ensures b.vy <= 0.0 ==> n.vy == b.vy
    ensures b.y > floorY - b.r && scale >= 0.0 && 0.0 <= b.fric < 1.0 && (b.flowDir == 1 || b.flowDir == -1) ==>
      Abs(n.vx) >= Scaled(120.0, scale) &&
      (b.vx > 0.0 ==> n.vx > 0.0) && (b.vx < 0.0 ==> n.vx < 0.0) &&
      (b.vx == 0.0 ==> n.vx == b.flowDir as real * Scaled(120.0, scale))
    // friction first, then the minimum speed only where friction went below it
    ensures b.y > floorY - b.r && Abs(b.vx * (1.0 - b.fric)) >= Scaled(120.0, scale) ==>
      n.vx == b.vx * (1.0 - b.fric)
    ensures b.y > floorY - b.r && scale >= 0.0 && (b.flowDir == 1 || b.flowDir == -1) &&
            Abs(b.vx * (1.0 - b.fric)) < Scaled(120.0, scale) ==>
      Abs(n.vx) == Scaled(120.0, scale)
  {
    var fy := floorY - b.r;
    if b.y > fy then
      FrictionKeepsSign(b.vx, b.fric);
      b.(y := fy, vy := Reflect(b.vy, b.rest),
         vx := AntiStall(b.vx * (1.0 - b.fric), b.flowDir, Scaled(120.0, scale)))
    else
      b
  }

  /** A downward vertical speed bounces back scaled by the restitution. */
  function Reflect(vy: real, rest: real): (v: real)
    ensures vy > 0.0 && rest >= 0.0 ==> v <= 0.0
    ensures vy > 0.0 ==> v == -vy * rest
    ensures vy <= 0.0 ==> v == vy
  {
    if vy > 0.0 then
      if rest >= 0.0 then MulNonneg(vy, rest); -vy * rest else -vy * rest
    else vy
  }

  /** The minimum floor speed: a horizontal speed below `minVx` is raised to
      `minVx` in its own direction, or in the flow direction when it is 0. */
  function AntiStall(vx: real, flowDir: int, minVx: real): (v: real)
    ensures Abs(vx) >= minVx ==> v == vx
    ensures minVx >= 0.0 && (flowDir == 1 || flowDir == -1) ==>
      Abs(v) >= minVx &&
      (vx > 0.0 ==> v > 0.0) && (vx < 0.0 ==> v < 0.0) &&
      (vx == 0.0 ==> v == flowDir as real * minVx)
    ensures minVx >= 0.0 && (flowDir == 1 || flowDir == -1) && Abs(vx) < minVx ==> Abs(v) == minVx
  {
    if Abs(vx) < minVx then Sign(if vx != 0.0 then vx else flowDir as real) * minVx else vx
  }

  /** Floor friction below 1 keeps the sign of vx. */
  lemma FrictionKeepsSign(vx: real, fric: real)
    ensures 0.0 <= fric < 1.0 ==>
      (vx > 0.0 <==> vx * (1.0 - fric) > 0.0) &&
      (vx < 0.0 <==> vx * (1.0 - fric) < 0.0) &&
      (vx == 0.0 <==> vx * (1.0 - fric) == 0.0)
  {
    if 0.0 <= fric < 1.0 {
      if vx > 0.0 {
        assert vx * (1.0 - fric) > 0.0;
      } else if vx < 0.0 {
        assert (-vx) * (1.0 - fric) > 0.0;
      }
    }
  }

  /** A ball resting on the floor stays there across frames of one fixed
      length dt: with non-negative gravity, a drag factor in (0, 1] and
      restitution in [0, 1], a ball on the ground line whose vertical speed is
      upward by at most g * dt is again on the line with such a speed after
      the frame. */
  lemma RestingStaysOnFloor(b: Ball, windA: real, dt: real, damp: real, floorY: real, scale: real)
    requires b.y == floorY - b.r && -(b.g * dt) <= b.vy <= 0.0
    requires 0.0 <= dt && 0.0 < damp <= 1.0 && 0.0 <= b.g && 0.0 <= b.rest <= 1.0
    ensures var n := FloorContact(Integrate(b, windA, dt, damp), floorY, scale);
      n.y == floorY - b.r && -(b.g * dt) <= n.vy <= 0.0
  {
    var i := Integrate(b, windA, dt, damp);
    FallBound(b.vy, b.g, dt, damp);
    if i.vy > 0.0 {
      MulPos(i.vy, dt);
    } else {
      assert i.vy == 0.0;
    }
    Settles(i, floorY, scale, b.g * dt);
  }

  /** Frames of varying length break the resting bound: a ball at rest on the
      line (floor 420, radius 10, gravity 1000, restitution 0.9, no drag)
      bounces back at 27 upward after a 0.03 s frame, and a following 0.01 s
      frame, whose gravity only cancels 10 of it, lifts it to 409.83, above
      the line. */
  lemma ShorterFrameLifts(b: Ball)
    requires b.y == 410.0 && b.r == 10.0 && b.vy == 0.0 && b.g == 1000.0 && b.rest == 0.9
    ensures var n1 := FloorContact(Integrate(b, 0.0, 0.03, 1.0), 420.0, 1.0);
      n1.y == 410.0 && n1.vy == -27.0 &&
      var n2 := FloorContact(Integrate(n1, 0.0, 0.01, 1.0), 420.0, 1.0);
      n2.y == 409.83 && n2.y < 420.0 - b.r
  {
    var i1 := Integrate(b, 0.0, 0.03, 1.0);
    assert i1.vy == 30.0 && i1.y == 410.9 && i1.r == 10.0;
    var n1 := FloorContact(i1, 420.0, 1.0);
    assert n1.y == 410.0 && n1.vy == -27.0 && n1.r == 10.0;
    var i2 := Integrate(n1, 0.0, 0.01, 1.0);
    assert i2.vy == -17.0 && i2.y == 409.83;
  }

  /** The floor rule on a ball at or below the ground line that moves down
      by at most `bound`: it ends on the line, at most `bound` fast. */
  lemma Settles(i: Ball, floorY: real, scale: real, bound: real)
    requires i.y >= floorY - i.r && 0.0 <= i.vy <= bound && 0.0 <= i.rest <= 1.0
    ensures var n := FloorContact(i, floorY, scale);
      n.y == floorY - i.r && Abs(n.vy) <= bound
  {
    if i.y > floorY - i.r && i.vy > 0.0 {
      RestBound(i.vy, i.rest);
      assert i.vy * i.rest <= i.vy;
      NegatedWithin(i.vy * i.rest, i.vy, bound);
    }
  }

  lemma NegatedWithin(x: real, v: real, bound: real)
    requires 0.0 <= x <= v <= bound
    ensures Abs(-x) <= bound
  {
  }

  lemma RestBound(v: real, rest: real)
    requires 0.0 <= v && 0.0 <= rest <= 1.0
    ensures 0.0 <= v * rest <= v
  {
    MulNonneg(v, rest);
    MulNonneg(v, 1.0 - rest);
    assert v * (1.0 - rest) == v - v * rest;
  }

  lemma FallBound(vy: real, g: real, dt: real, damp: real)
    requires -(g * dt) <= vy <= 0.0 && 0.0 <= g && 0.0 <= dt && 0.0 < damp <= 1.0
    ensures 0.0 <= (vy + g * dt) * damp <= g * dt
  {
    var f := vy + g * dt;
    MulNonneg(g, dt);
    assert 0.0 <= f <= g * dt;
    MulNonneg(f, damp);
    MulNonneg(f, 1.0 - damp);
    assert f * (1.0 - damp) == f - f * damp;
  }

  /** The trail after one frame: every stored opacity times 0.92, the new
      position in front at full opacity, and the oldest point dropped when the
      buffer would exceed its capacity. */
  function TrailAfter(pts: seq<TrailPt>, x: real, y: real, cap: nat): (out: seq<TrailPt>)
    ensures |pts| <= cap ==> |out| <= cap
    ensures |pts| == cap ==> |out| == cap
    ensures |out| == if |pts| + 1 > cap then |pts| else |pts| + 1
    ensures |out| > 0 ==> out[0] == TrailPt(x, y, 1.0)
    ensures forall i :: 1 <= i < |out| ==> out[i] == pts[i - 1].(a := pts[i - 1].a * 0.92)
  {
    var pushed := [TrailPt(x, y, 1.0)] + Decayed(pts);
    if |pushed| > cap then pushed[..|pushed| - 1] else pushed
  }

  function Decayed(pts: seq<TrailPt>): (out: seq<TrailPt>)
    ensures |out| == |pts|
    ensures forall i :: 0 <= i < |pts| ==> out[i] == pts[i].(a := pts[i].a * 0.92)
  {
    seq(|pts|, i requires 0 <= i < |pts| => pts[i].(a := pts[i].a * 0.92))
  }

  /** The trail loop of `updateBalls`: fade every point in place, `unshift`
      the new position, `pop` when over capacity. */
  method UpdateTrail(pts: seq<TrailPt>, x: real, y: real, cap: nat) returns (out: seq<TrailPt>)
    ensures out == TrailAfter(pts, x, y, cap)
  {
    out := pts;
    for i := 0 to |out|
      invariant |out| == |pts|
      invariant forall j :: 0 <= j < i ==> out[j] == pts[j].(a := pts[j].a * 0.92)
      invariant forall j :: i <= j < |out| ==> out[j] == pts[j]
    {
      out := out[i := out[i].(a := out[i].a * 0.92)];
    }
    assert out == Decayed(pts);
    out := [TrailPt(x, y, 1.0)] + out;
    if |out| > cap {
      out := out[..|out| - 1];
    }
  }

  /** One frame of one ball: integrate, floor rule, trail. */
  function AdvanceBall(b: Ball, windA: real, dt: real, damp: real, floorY: real, scale: real): (n: Ball)
    ensures WellFormed(b) ==> WellFormed(n)
    ensures n.kind == b.kind && n.r == b.r && n.g == b.g && n.flowDir == b.flowDir
    ensures n.rest == b.rest && n.fric == b.fric && n.drag == b.drag && n.trailLen == b.trailLen
    ensures n.y <= floorY - b.r
    ensures |n.trail| > 0 ==> n.trail[0] == TrailPt(n.x, n.y, 1.0)
  {
    var m := FloorContact(Integrate(b, windA, dt, damp), floorY, scale);
    m.(trail := TrailAfter(m.trail, m.x, m.y, m.trailLen))
  }

  /** The per-ball loop of `updateBalls` over every ball, each with its own
      drag factor `damping(drag, dt)`, the value of `Math.exp(-drag * 60 * dt)`. */
  function AdvanceAll(balls: seq<Ball>, windA: real, dt: real, damping: (real, real) -> real,
                      floorY: real, scale: real): (out: seq<Ball>)
    ensures |out| == |balls|
    ensures forall i :: 0 <= i < |balls| ==> out[i] == AdvanceWith(balls[i], windA, dt, damping, floorY, scale)
    ensures AllWellFormed(balls) ==> AllWellFormed(out)
  {
    seq(|balls|, i requires 0 <= i < |balls| => AdvanceWith(balls[i], windA, dt, damping, floorY, scale))
  }

  function AdvanceWith(b: Ball, windA: real, dt: real, damping: (real, real) -> real,
                       floorY: real, scale: real): Ball
  {
    AdvanceBall(b, windA, dt, damping(b.drag, dt), floorY, scale)
  }

  /** The visible area widened by `margin` on every side. */
  predicate Inside(b: Ball, w: real, h: real, margin: real)
  {
    !(b.x < -margin || b.x > w + margin || b.y > h + margin || b.y < -margin)
  }

  /** The balls that survive culling, in their original order. */
  function Culled(balls: seq<Ball>, w: real, h: real, margin: real): (kept: seq<Ball>)
    ensures |kept| <= |balls|
    ensures forall b :: b in kept ==> b in balls && Inside(b, w, h, margin)
  {
    if balls == [] then []
    else (if Inside(balls[0], w, h, margin) then [balls[0]] else []) + Culled(balls[1..], w, h, margin)
  }

  /** Culling drops exactly the balls outside the margin. */
  lemma {:induction false} CulledKeepsInside(balls: seq<Ball>, w: real, h: real, margin: real, b: Ball)
    requires b in balls && Inside(b, w, h, margin)
    ensures b in Culled(balls, w, h, margin)
  {
    if balls[0] != b {
      CulledKeepsInside(balls[1..], w, h, margin, b);
    }
  }

  /** Culling preserves order: culling a concatenation culls each part. */
  lemma {:induction false} CulledAppend(a: seq<Ball>, c: seq<Ball>, w: real, h: real, margin: real)
    ensures Culled(a + c, w, h, margin) == Culled(a, w, h, margin) + Culled(c, w, h, margin)
  {
    if a == [] {
      assert a + c == c;
    } else {
      assert (a + c)[0] == a[0];
      assert (a + c)[1..] == a[1..] + c;
      CulledAppend(a[1..], c, w, h, margin);
    }
  }

  /** The culling loop of `updateBalls`: walk the indices downward and
      `splice` out every ball beyond the margin. */
  method CullBalls(balls: seq<Ball>, w: real, h: real, margin: real) returns (kept: seq<Ball>)
    ensures kept == Culled(balls, w, h, margin)
  {
    kept := balls;
    var i := |balls|;
    while i > 0
      invariant 0 <= i <= |balls|
      invariant kept == balls[..i] + Culled(balls[i..], w, h, margin)
    {
      i := i - 1;
      CullStep(balls, kept, i, w, h, margin);
      var b := kept[i];
      var out := b.x < -margin || b.x > w + margin || b.y > h + margin || b.y < -margin;
      if out {
        kept := kept[..i] + kept[i + 1..];
      }
    }
    assert balls[0..] == balls;
  }

  /** One iteration of `CullBalls`, going from the balls after index i
      culled to the balls from index i culled: keep ball i, or splice it out. */
  lemma CullStep(balls: seq<Ball>, kept: seq<Ball>, i: nat, w: real, h: real, margin: real)
    requires i < |balls| && kept == balls[..i + 1] + Culled(balls[i + 1..], w, h, margin)
    ensures i < |kept| && kept[i] == balls[i]
    ensures Inside(balls[i], w, h, margin) ==> kept == balls[..i] + Culled(balls[i..], w, h, margin)
    ensures !Inside(balls[i], w, h, margin) ==>
      kept[..i] + kept[i + 1..] == balls[..i] + Culled(balls[i..], w, h, margin)
  {
    var rest := Culled(balls[i + 1..], w, h, margin);
    assert balls[i..] == [balls[i]] + balls[i + 1..];
    assert balls[..i + 1] == balls[..i] + [balls[i]];
    assert kept[..i] == balls[..i];
    assert kept[i + 1..] == rest;
  }
}
