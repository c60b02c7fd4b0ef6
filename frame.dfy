/** The component's frame logic as functions on one value: everything `init`,
    `applyResize` and `step` read and write between two animation frames
    (`stateRef`, `dashRef`, `keysRef`, `scaleRef`, `scoreRef`, `bestRef` and
    the game-over flag). The classes of the Game module are proved to do
    what these functions say. */
module Frame {
  import opened Num
  import opened Difficulty
  import opened Entities
  import opened Physics
  import opened Collision
  import opened Control
  import opened Resize
  import opened Population

  /** The state the component keeps between frames. `player` holds the
      player fields of `stateRef`, `dash` the fields of `dashRef`, and
      `left`, `right`, `jump` the fields of `keysRef`. */
  datatype Snapshot = Snapshot(
    startedAt: real, lastT: real,
    w: int, h: int, groundY: int, pw: real, ph: real,
    player: Body, balls: seq<Ball>,
    dash: Dash, left: bool, right: bool, jump: bool,
    scale: real, score: int, best: int, over: bool)

  /** What holds between frames: the world is sized for the scale (width in
      [320, 900], base height 520 and ground line 420 scaled and floored,
      player box 34 by 48 scaled), the dash timers are never negative and
      the dash faces left or right, the player is inside the width, not
      below the ground and has a consistent jump counter, and every ball is
      well formed. */
  predicate Inv(s: Snapshot)
  {
    320 <= s.w <= 900 && s.scale == s.w as real / 900.0 &&
    s.h == DisplayHeight(s.w) && s.groundY == GroundLine(s.scale) &&
    s.pw == 34.0 * s.scale && s.ph == 48.0 * s.scale &&
    s.dash.activeT >= 0.0 && s.dash.cooldownT >= 0.0 && s.dash.invulnT >= 0.0 &&
    (s.dash.dir == 1 || s.dash.dir == -1) &&
    AirOk(s.player) &&
    s.pw / 2.0 <= s.player.px <= s.w as real - s.pw / 2.0 &&
    s.player.py <= s.groundY as real &&
    AllWellFormed(s.balls)
  }

  /** The frame length in seconds for timestamp t, capped at 0.033. */
  function FrameDt(t: real, lastT: real): (dt: real)
    ensures dt <= 0.033
    ensures t >= lastT ==> dt >= 0.0
    ensures t - lastT <= 33.0 ==> dt * 1000.0 == t - lastT
    ensures t - lastT >= 33.0 ==> dt == 0.033
  {
    Min(0.033, (t - lastT) / 1000.0)
  }

  /** Whole seconds survived at timestamp t. */
  function ScoreAt(t: real, startedAt: real): (sec: int)
    ensures t >= startedAt ==> sec >= 0
    ensures sec as real <= (t - startedAt) / 1000.0 < sec as real + 1.0
  {
    ((t - startedAt) / 1000.0).Floor
  }

  /** `intersectsPlayer`: some ball overlaps the player's box. */
  predicate Touching(s: Snapshot)
  {
    exists i :: 0 <= i < |s.balls| && HitsPlayer(s.balls[i], s.player.px, s.player.py, s.pw, s.ph)
  }

  // ------------------------------------------------------------------ init

  /** `init` at time `now` with the draws of its three spawns: the run
      restarts, then three balls of difficulty 0 are spawned. */
  function InitSpec(s: Snapshot, now: real, d0: SpawnDraws, d1: SpawnDraws, d2: SpawnDraws): Snapshot
  {
    var spawn := Spawner(CurrentParams(0, s.scale), s.scale, s.w, s.groundY);
    ResetSpec(s, now).(balls := [spawn(d0), spawn(d1), spawn(d2)])
  }

  /** The part of `init` before its spawns: the clock restarts at `now`,
      the player stands still in the middle of the ground, and the balls,
      the score and the dash are cleared. */
  function ResetSpec(s: Snapshot, now: real): Snapshot
  {
    s.(startedAt := now, lastT := now,
       player := Body(s.w as real / 2.0, s.groundY as real, 0.0, 0.0, true, 0),
       balls := [], score := 0, dash := Dash(0.0, 0.0, 0.0, 1, false))
  }

  /** `init` keeps the invariant and leaves a standing player facing right
      with no dash and exactly three fresh, well-formed balls; it touches
      neither the world size, nor the keys, nor the best score. */
  lemma InitKeepsInv(s: Snapshot, now: real, d0: SpawnDraws, d1: SpawnDraws, d2: SpawnDraws)
    requires Inv(s)
    ensures var n := InitSpec(s, now, d0, d1, d2);
      Inv(n) && |n.balls| == 3 && n.score == 0 && n.startedAt == now && n.lastT == now &&
      n.player.onGround && n.player.jumpCount == 0 && n.player.vx == 0.0 && n.player.vy == 0.0 &&
      n.player.px == n.w as real / 2.0 && n.player.py == n.groundY as real &&
      n.dash == Dash(0.0, 0.0, 0.0, 1, false) &&
      n.w == s.w && n.h == s.h && n.scale == s.scale && n.best == s.best && n.over == s.over &&
      n.left == s.left && n.right == s.right && n.jump == s.jump
  {
    var n := InitSpec(s, now, d0, d1, d2);
    assert 17.0 * s.scale <= s.w as real / 2.0 <= s.w as real - 17.0 * s.scale;
    forall b | b in n.balls
      ensures WellFormed(b)
    {
    }
  }

  // ---------------------------------------------------------------- resize

  /** `applyResize` for a container `width` wide: the new display width
      and scale, then every length and velocity times the ratio of the new
      scale to the old one, and the player back inside the world. */
  function ResizeSpec(s: Snapshot, width: real): Snapshot
  {
    var dw := DisplayWidth(width);
    var scale := dw as real / 900.0;
    var k := Ratio(scale, s.scale);
    var gy := GroundLine(scale);
    var pw := 34.0 * scale;
    s.(w := dw, h := DisplayHeight(dw), groundY := gy, pw := pw, ph := 48.0 * scale, scale := scale,
       player := ResizedPlayer(s.player, k, pw, dw as real, gy as real),
       balls := RescaleBalls(s.balls, k))
  }

  /** A resize keeps the invariant from any state whose player and balls
      are consistent, whatever the container width; the clock, the score,
      the dash and the keys are untouched. */
  lemma ResizeKeepsInv(s: Snapshot, width: real)
    requires AirOk(s.player) && AllWellFormed(s.balls)
    requires s.dash.activeT >= 0.0 && s.dash.cooldownT >= 0.0 && s.dash.invulnT >= 0.0
    requires s.dash.dir == 1 || s.dash.dir == -1
    ensures var n := ResizeSpec(s, width);
      Inv(n) && n.startedAt == s.startedAt && n.lastT == s.lastT && n.dash == s.dash &&
      n.score == s.score && n.best == s.best && n.over == s.over &&
      |n.balls| == |s.balls|
  {
    var n := ResizeSpec(s, width);
    var dw := DisplayWidth(width);
    var scale := dw as real / 900.0;
    assert 34.0 * scale <= dw as real;
    ResizedPlayerInside(s.player, Ratio(scale, s.scale), 34.0 * scale, dw as real, GroundLine(scale) as real);
    RescaleBallsWellFormed(s.balls, Ratio(scale, s.scale));
  }

  /** Resizing to the width the world already has changes nothing. */
  lemma ResizeSameWidth(s: Snapshot)
    requires Inv(s)
    ensures ResizeSpec(s, s.w as real) == s
  {
    var k := Ratio(s.scale, s.scale);
    assert DisplayWidth(s.w as real) == s.w;
    RatioSame(s.scale);
    RescaleIdentity(s.balls);
    ResizedPlayerIdentity(s.player, s.pw, s.w as real, s.groundY as real);
  }

  // ------------------------------------------------------------------ step

  /** The clock part of `step` at timestamp t: the timestamp is recorded,
      the score becomes the whole seconds survived, and `ensureBallCount`
      tops the balls up for that score. */
  function TickSpec(s: Snapshot, t: real, rolls: nat -> real, draws: nat -> SpawnDraws): Snapshot
  {
    var sec := ScoreAt(t, s.startedAt);
    s.(lastT := t, score := sec,
       balls := ToppedUp(s.balls, sec, s.scale, s.w, s.groundY, rolls, draws))
  }

  /** The player part of `step` for a frame of length dt: the dash timers,
      direction and trigger, then steering (the dash state after the
      trigger decides whether the dash speed applies), the jump, which
      consumes the pending press, gravity and landing. */
  function MoveSpec(s: Snapshot, dt: real): Snapshot
  {
    var d := DashStep(s.dash, s.left, s.right, dt);
    s.(dash := d,
       player := PlayerStep(s.player, s.left, s.right, s.jump, d.activeT > 0.0, d.dir,
                            s.w as real, s.pw, s.groundY as real, dt, ScaleOr1(s.scale)),
       jump := false)
  }

  /** The end of `step`: `updateBalls` with the wind of the score sec, then
      the collision test. */
  function SettleSpec(s: Snapshot, dt: real, sec: int, damping: (real, real) -> real): Snapshot
  {
    HitSpec(s.(balls := Culled(AdvanceAll(s.balls, CurrentParams(sec, s.scale).windA, dt, damping,
                                          s.groundY as real, s.scale),
                               s.w as real, s.h as real, Scaled(260.0, s.scale))), sec)
  }

  /** The collision test of `step`: `gameOver(sec)` when a ball touches a
      player who is not invulnerable. */
  function HitSpec(s: Snapshot, sec: int): Snapshot
  {
    if s.dash.invulnT <= 0.0 && Touching(s) then s.(best := IMax(s.best, sec), over := true) else s
  }

  /** One call of `step` at timestamp t. The fill rolls and the spawn draws
      of `ensureBallCount` are `rolls` and `draws`; `damping(drag, dt)`
      stands for `Math.exp(-drag * 60 * dt)`. */
  function StepSpec(s: Snapshot, t: real, rolls: nat -> real, draws: nat -> SpawnDraws,
                    damping: (real, real) -> real): Snapshot
  {
    var dt := FrameDt(t, s.lastT);
    SettleSpec(MoveSpec(TickSpec(s, t, rolls, draws), dt), dt, ScoreAt(t, s.startedAt), damping)
  }

  lemma TickKeepsInv(s: Snapshot, t: real, rolls: nat -> real, draws: nat -> SpawnDraws)
    requires Inv(s)
    ensures Inv(TickSpec(s, t, rolls, draws))
  {
    var n := TickSpec(s, t, rolls, draws);
    forall b | b in n.balls
      ensures WellFormed(b)
    {
      var i :| 0 <= i < |n.balls| && n.balls[i] == b;
      if i < |s.balls| {
        assert n.balls[..|s.balls|][i] == b;
      } else {
        ToppedUpSpawns(s.balls, n.score, s.scale, s.w, s.groundY, rolls, draws, i);
      }
    }
  }

  lemma MoveKeepsInv(s: Snapshot, dt: real)
    requires Inv(s)
    ensures Inv(MoveSpec(s, dt))
  {
    assert s.pw <= s.w as real;
  }

  lemma SettleKeepsInv(s: Snapshot, dt: real, sec: int, damping: (real, real) -> real)
    requires Inv(s)
    ensures Inv(SettleSpec(s, dt, sec, damping))
  {
    var adv := AdvanceAll(s.balls, CurrentParams(sec, s.scale).windA, dt, damping, s.groundY as real, s.scale);
    var kept := Culled(adv, s.w as real, s.h as real, Scaled(260.0, s.scale));
    forall b | b in kept
      ensures WellFormed(b)
    {
    }
    var s1 := s.(balls := kept);
    assert Inv(s1);
    assert SettleSpec(s, dt, sec, damping) == HitSpec(s1, sec);
  }

  /** `step` keeps the invariant between frames. */
  lemma StepKeepsInv(s: Snapshot, t: real, rolls: nat -> real, draws: nat -> SpawnDraws,
                     damping: (real, real) -> real)
    requires Inv(s)
    ensures Inv(StepSpec(s, t, rolls, draws, damping))
  {
    var dt := FrameDt(t, s.lastT);
    var s1 := TickSpec(s, t, rolls, draws);
    TickKeepsInv(s, t, rolls, draws);
    MoveKeepsInv(s1, dt);
    SettleKeepsInv(MoveSpec(s1, dt), dt, ScoreAt(t, s.startedAt), damping);
  }

  /** What one frame promises about the run: the timestamp is recorded and
      the score is the whole seconds since the start; the world size, the
      start time and the held arrows are untouched and the jump press is
      consumed; the run ends exactly when it had ended or a ball touches a
      player who is not invulnerable, and then the best score becomes at
      least the score; otherwise the best score is unchanged. */
  lemma StepOutcome(s: Snapshot, t: real, rolls: nat -> real, draws: nat -> SpawnDraws,
                    damping: (real, real) -> real)
    ensures var n := StepSpec(s, t, rolls, draws, damping);
      var caught := n.dash.invulnT <= 0.0 && Touching(n);
      n.lastT == t && n.score == ScoreAt(t, s.startedAt) && n.startedAt == s.startedAt &&
      n.w == s.w && n.h == s.h && n.groundY == s.groundY && n.scale == s.scale &&
      n.pw == s.pw && n.ph == s.ph &&
      n.left == s.left && n.right == s.right && !n.jump && !n.dash.request &&
      (n.over <==> s.over || caught) &&
      (caught ==> n.best == IMax(s.best, n.score)) &&
      (!caught ==> n.best == s.best)
  {
  }

  /** The frame in which a dash starts cannot end the run: the dash makes
      the player invulnerable before the collision test. */
  lemma DashShields(s: Snapshot, t: real, rolls: nat -> real, draws: nat -> SpawnDraws,
                    damping: (real, real) -> real)
    requires Fires(Steer(Tick(s.dash, FrameDt(t, s.lastT)), s.left, s.right))
    ensures var n := StepSpec(s, t, rolls, draws, damping);
      n.over == s.over && n.best == s.best && n.dash.invulnT == DashInvuln
  {
  }

  /** After a frame there are never more balls than before the frame or
      than the target of the current difficulty, whichever is larger. */
  lemma StepBallBound(s: Snapshot, t: real, rolls: nat -> real, draws: nat -> SpawnDraws,
                      damping: (real, real) -> real)
    ensures |StepSpec(s, t, rolls, draws, damping).balls| <=
            IMax(|s.balls|, CurrentParams(ScoreAt(t, s.startedAt), s.scale).targetBalls)
  {
  }
}
