/** The state-rescaling part of `applyResize`: the display width is clamped,
    and every length and velocity is multiplied by the ratio of the new
    scale to the old one, so play feels the same at any size. */
module Resize {
  import opened Num
  import opened Entities
  import opened Control

  /** The display width for a container of the given width: floored, then
      clamped to [320, 900]. */
  function DisplayWidth(width: real): (dw: int)
    ensures 320 <= dw <= 900
    ensures 320.0 <= width < 901.0 ==> dw == width.Floor
    ensures width < 320.0 ==> dw == 320
    ensures width >= 901.0 ==> dw == 900
  {
    IClamp(width.Floor, 320, 900)
  }

  /** The display height: the base aspect ratio 520 / 900, floored. */
  function DisplayHeight(dw: int): (dh: int)
    ensures dw == 900 ==> dh == 520
    ensures dh as real <= dw as real * 520.0 / 900.0 < dh as real + 1.0
  {
    (dw as real * (520.0 / 900.0)).Floor
  }

  /** The ground line for a scale: 420 in base units, floored. */
  function GroundLine(scale: real): (g: int)
    ensures scale == 1.0 ==> g == 420
    ensures g as real <= 420.0 * scale < g as real + 1.0
  {
    (420.0 * scale).Floor
  }

  /** `newScale / (scaleRef.current || 1)`. */
  function Ratio(newScale: real, oldScale: real): real
  {
    newScale / ScaleOr1(oldScale)
  }

  /** Resizing from one positive scale to another and back multiplies by
      ratios whose product is 1. */
  lemma RatioRoundTrip(a: real, b: real)
    requires 0.0 < a && 0.0 < b
    ensures Ratio(b, a) * Ratio(a, b) == 1.0
  {
    assert (b / a) * (a / b) == (b * a) / (a * b);
  }

  /** Resizing to the current scale has ratio 1. */
  lemma RatioSame(a: real)
    requires 0.0 < a
    ensures Ratio(a, a) == 1.0
  {
    assert ScaleOr1(a) == a;
    assert a / a == 1.0;
  }

  /** The trail-point loop: positions scaled, opacities untouched. */
  function RescaleTrail(pts: seq<TrailPt>, k: real): (out: seq<TrailPt>)
    ensures |out| == |pts|
    ensures forall i :: 0 <= i < |pts| ==>
      out[i].a == pts[i].a && out[i].x == pts[i].x * k && out[i].y == pts[i].y * k
  {
    seq(|pts|, i requires 0 <= i < |pts| => pts[i].(x := pts[i].x * k, y := pts[i].y * k))
  }

  /** One ball rescaled: position, radius, velocity, gravity and trail
      positions scale; kind, restitution, friction, drag, flow direction and
      trail capacity do not. */
  function RescaleBall(b: Ball, k: real): (n: Ball)
    ensures n.kind == b.kind && n.rest == b.rest && n.fric == b.fric && n.drag == b.drag
    ensures n.flowDir == b.flowDir && n.trailLen == b.trailLen && |n.trail| == |b.trail|
    ensures n.x == b.x * k && n.y == b.y * k && n.r == b.r * k
    ensures n.vx == b.vx * k && n.vy == b.vy * k && n.g == b.g * k
    ensures WellFormed(b) ==> WellFormed(n)
  {
    b.(x := b.x * k, y := b.y * k, r := b.r * k, vx := b.vx * k, vy := b.vy * k,
       g := b.g * k, trail := RescaleTrail(b.trail, k))
  }

  function RescaleBalls(balls: seq<Ball>, k: real): (out: seq<Ball>)
    ensures |out| == |balls|
    ensures forall i :: 0 <= i < |balls| ==> out[i] == RescaleBall(balls[i], k)
  {
    seq(|balls|, i requires 0 <= i < |balls| => RescaleBall(balls[i], k))
  }

  /** The player after a resize by k: position and velocity times k, then
      the position back inside a world w wide and not below the ground at
      groundY; the grounded flag and the jump counter are kept. */
  function ResizedPlayer(p: Body, k: real, pw: real, w: real, groundY: real): Body
  {
    PutInside(ScaledBody(p, k), pw, w, groundY)
  }

  /** Position and velocity times k. */
  function ScaledBody(p: Body, k: real): Body
  {
    p.(px := p.px * k, py := p.py * k, vx := p.vx * k, vy := p.vy * k)
  }

  /** The closing correction of `applyResize`: back inside a world w wide
      and not below the ground at groundY. */
  function PutInside(p: Body, pw: real, w: real, groundY: real): Body
  {
    p.(px := Clamp(p.px, pw / 2.0, w - pw / 2.0), py := Min(p.py, groundY))
  }

  /** Whatever the ratio, the resized player stands inside the world and
      not below the ground, and its jump state stays consistent; where the
      scaled position is already inside, it is not moved. */
  lemma ResizedPlayerInside(p: Body, k: real, pw: real, w: real, groundY: real)
    requires pw <= w && AirOk(p)
    ensures var q := ResizedPlayer(p, k, pw, w, groundY);
      pw / 2.0 <= q.px <= w - pw / 2.0 && q.py <= groundY && AirOk(q) &&
      q.onGround == p.onGround && q.jumpCount == p.jumpCount &&
      q.vx == p.vx * k && q.vy == p.vy * k &&
      (pw / 2.0 <= p.px * k <= w - pw / 2.0 ==> q.px == p.px * k) &&
      (p.py * k <= groundY ==> q.py == p.py * k)
  {
  }

  /** A resize to the same scale leaves a player who is inside unchanged. */
  lemma ResizedPlayerIdentity(p: Body, pw: real, w: real, groundY: real)
    requires pw / 2.0 <= p.px <= w - pw / 2.0 && p.py <= groundY
    ensures ResizedPlayer(p, 1.0, pw, w, groundY) == p
  {
  }

  /** Unlike the balls, the player is not restored by a resize round trip:
      the ground line is floored, and the player is clamped to it. A player
      standing on the ground at width 900 (py = 420) is pulled up to the
      floored line 149 at width 320, and back at width 900 stands at
      149 * 900 / 320 = 419.0625, above the ground line 420 yet still
      marked as grounded. */
  lemma GroundedRoundTripDrifts()
    ensures var s1 := 320.0 / 900.0;
      var p := Body(450.0, 420.0, 0.0, 0.0, true, 0);
      var q := ResizedPlayer(p, Ratio(s1, 1.0), 34.0 * s1, 320.0, GroundLine(s1) as real);
      var back := ResizedPlayer(q, Ratio(1.0, s1), 34.0, 900.0, GroundLine(1.0) as real);
      q.py == 149.0 && back.py == 419.0625 && back.py < GroundLine(1.0) as real && back.onGround
  {
    var s1 := 320.0 / 900.0;
    var p := Body(450.0, 420.0, 0.0, 0.0, true, 0);
    assert 420.0 * s1 == 149.0 + 1.0 / 3.0;
    assert GroundLine(s1) == 149;
    assert ScaleOr1(1.0) == 1.0 && Ratio(s1, 1.0) == s1;
    assert 450.0 * s1 == 160.0 && 34.0 * s1 / 2.0 < 10.0;
    var q := ResizedPlayer(p, s1, 34.0 * s1, 320.0, 149.0);
    var lo := 34.0 * s1 / 2.0;
    assert lo <= 160.0 <= 320.0 - lo;
    assert q.px == Clamp(160.0, lo, 320.0 - lo) == 160.0;
    assert q.py == 149.0;
    assert q.onGround;
    assert ScaleOr1(s1) == s1 && Ratio(1.0, s1) == 2.8125;
    var back := ResizedPlayer(q, 2.8125, 34.0, 900.0, 420.0);
    assert back.py == Min(149.0 * 2.8125, 420.0) == 419.0625;
    assert back.onGround;
  }

  lemma RescaleBallsWellFormed(balls: seq<Ball>, k: real)
    requires AllWellFormed(balls)
    ensures AllWellFormed(RescaleBalls(balls, k))
  {
    var out := RescaleBalls(balls, k);
    forall b | b in out
      ensures WellFormed(b)
    {
      var i :| 0 <= i < |out| && out[i] == b;
      assert balls[i] in balls;
    }
  }

  /** A resize to the same scale changes no ball. */
  lemma RescaleIdentity(balls: seq<Ball>)
    ensures RescaleBalls(balls, 1.0) == balls
  {
    var out := RescaleBalls(balls, 1.0);
    forall i | 0 <= i < |balls|
      ensures out[i] == balls[i]
    {
      var b := balls[i];
      assert RescaleTrail(b.trail, 1.0) == b.trail;
    }
  }

  /** Resizing by k and then by 1 / k restores every ball exactly: position,
      radius, velocity, gravity and trail. */
  lemma RescaleRoundTrip(balls: seq<Ball>, k1: real, k2: real)
    requires k1 * k2 == 1.0
    ensures RescaleBalls(RescaleBalls(balls, k1), k2) == balls
  {
    var out := RescaleBalls(RescaleBalls(balls, k1), k2);
    forall i | 0 <= i < |balls|
      ensures out[i] == balls[i]
    {
      BallRoundTrip(balls[i], k1, k2);
    }
  }

  lemma BallRoundTrip(b: Ball, k1: real, k2: real)
    requires k1 * k2 == 1.0
    ensures RescaleBall(RescaleBall(b, k1), k2) == b
  {
    Undo(b.x, k1, k2);
    Undo(b.y, k1, k2);
    Undo(b.r, k1, k2);
    Undo(b.vx, k1, k2);
    Undo(b.vy, k1, k2);
    Undo(b.g, k1, k2);
    var t := RescaleTrail(RescaleTrail(b.trail, k1), k2);
    forall i | 0 <= i < |t|
      ensures t[i] == b.trail[i]
    {
      Undo(b.trail[i].x, k1, k2);
      Undo(b.trail[i].y, k1, k2);
    }
  }

  lemma Undo(v: real, k1: real, k2: real)
    requires k1 * k2 == 1.0
    ensures v * k1 * k2 == v
  {
    assert v * k1 * k2 == v * (k1 * k2);
  }
}
