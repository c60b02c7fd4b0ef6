/** The player-versus-ball test of `intersectsPlayer`: closest point of an
    axis-aligned rectangle to a circle centre. */
module Collision {
  import opened Num
  import opened Entities

  /** The ball overlaps the rectangle with top-left corner (rx, ry), width rw
      and height rh: the squared distance from its centre to the centre
      clamped into the rectangle is at most r squared. */
  predicate Touches(b: Ball, rx: real, ry: real, rw: real, rh: real)
  {
    SqDist(b.x, b.y, rx, ry, rw, rh) <= b.r * b.r
  }

  /** Squared distance from (x, y) to the nearest point of the rectangle. */
  function SqDist(x: real, y: real, rx: real, ry: real, rw: real, rh: real): real
  {
    var dx := x - Clamp(x, rx, rx + rw);
    var dy := y - Clamp(y, ry, ry + rh);
    dx * dx + dy * dy
  }

  /** The player's rectangle: (px, py) is the middle of its feet. */
  predicate HitsPlayer(b: Ball, px: real, py: real, pw: real, ph: real)
  {
    Touches(b, px - pw / 2.0, py - ph, pw, ph)
  }

  /** `intersectsPlayer`: scan the balls in order and report the first overlap. */
  method IntersectsPlayer(balls: seq<Ball>, px: real, py: real, pw: real, ph: real) returns (hit: bool)
    ensures hit <==> exists i :: 0 <= i < |balls| && HitsPlayer(balls[i], px, py, pw, ph)
  {
    var rx := px - pw / 2.0;
    var ry := py - ph;
    var rw := pw;
    var rh := ph;
    for i := 0 to |balls|
      invariant forall j :: 0 <= j < i ==> !HitsPlayer(balls[j], px, py, pw, ph)
    {
      var b := balls[i];
      var closestX := Clamp(b.x, rx, rx + rw);
      var closestY := Clamp(b.y, ry, ry + rh);
      var dx := b.x - closestX;
      var dy := b.y - closestY;
      assert dx * dx + dy * dy == SqDist(b.x, b.y, rx, ry, rw, rh);
      if dx * dx + dy * dy <= b.r * b.r {
        assert HitsPlayer(balls[i], px, py, pw, ph);
        return true;
      }
    }
    return false;
  }

  /** A ball whose centre lies inside the rectangle always collides. */
  lemma CentreInsideTouches(b: Ball, rx: real, ry: real, rw: real, rh: real)
    requires rx <= b.x <= rx + rw && ry <= b.y <= ry + rh
    ensures Touches(b, rx, ry, rw, rh)
  {
    MulSelfNonneg(b.r);
  }

  /** A ball whose centre is more than its radius beyond an edge of the
      rectangle, in the outward direction, does not collide. */
  lemma BeyondEdgeMisses(b: Ball, rx: real, ry: real, rw: real, rh: real)
    requires 0.0 <= rw && 0.0 <= rh && 0.0 <= b.r
    requires b.x > rx + rw + b.r || b.x < rx - b.r || b.y > ry + rh + b.r || b.y < ry - b.r
    ensures !Touches(b, rx, ry, rw, rh)
  {
    var dx := b.x - Clamp(b.x, rx, rx + rw);
    var dy := b.y - Clamp(b.y, ry, ry + rh);
    MulSelfNonneg(dx);
    MulSelfNonneg(dy);
    if b.x > rx + rw + b.r || b.x < rx - b.r {
      assert dx > b.r || dx < -b.r;
      OffsetSquare(dx, b.r);
    } else {
      assert dy > b.r || dy < -b.r;
      OffsetSquare(dy, b.r);
    }
    assert SqDist(b.x, b.y, rx, ry, rw, rh) == dx * dx + dy * dy > b.r * b.r;
  }

  lemma OffsetSquare(d: real, r: real)
    requires 0.0 <= r && (d > r || d < -r)
    ensures d * d > r * r
  {
    if d > r {
      SquareGreater(d, r);
    } else {
      SquareGreater(-d, r);
      assert (-d) * (-d) == d * d;
    }
  }

  lemma MulSelfNonneg(x: real)
    ensures 0.0 <= x * x
  {
    if x < 0.0 {
      assert x * x == (-x) * (-x);
      MulNonneg(-x, -x);
    } else {
      MulNonneg(x, x);
    }
  }

  lemma SquareGreater(a: real, r: real)
    requires a > r >= 0.0
    ensures a * a > r * r
  {
    MulPos(a - r, a + r);
    assert (a - r) * (a + r) == a * a - r * r;
  }
}
