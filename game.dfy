/** The game component's mutable state and the operations on it: `stateRef`
    (the world and the player), `dashRef`, `keysRef` and the component's
    scale, score, best score and game-over flag. */
module Game {
  import opened Num
  import opened Difficulty
  import opened Entities
  import opened Physics
  import opened Collision
  import opened Control
  import opened Resize
  import opened Population
  import opened Frame

  /** `stateRef.current`: the world size, the player and the live balls. */
  class World {
    var startedAt: real
    var lastT: real
    var w: int
    var h: int
    var groundY: int
    var px: real
    var py: real
    var pw: real
    var ph: real
    var vx: real
    var vy: real
    var onGround: bool
    var jumpCount: int
    var balls: seq<Ball>

    /** The initial value of `stateRef`: base size, player centred on the ground. */
    constructor()
      ensures startedAt == 0.0 && lastT == 0.0
      ensures w == 900 && h == 520 && groundY == 420 && pw == 34.0 && ph == 48.0
      ensures Player() == Body(450.0, 420.0, 0.0, 0.0, true, 0)
      ensures balls == []
    {
      startedAt, lastT := 0.0, 0.0;
      w, h, groundY := 900, 520, 420;
      px, py, pw, ph := 450.0, 420.0, 34.0, 48.0;
      vx, vy := 0.0, 0.0;
      onGround, jumpCount := true, 0;
      balls := [];
    }

    /** The player fields as one value. */
    function Player(): Body
      reads this
    {
      Body(px, py, vx, vy, onGround, jumpCount)
    }

    /** The world part of `init`: the clock restarts at `now`, the player
        stands still in the middle of the ground and there are no balls. */
    method Reset(now: real)
      modifies this`startedAt, this`lastT, this`px, this`py, this`vx, this`vy,
               this`onGround, this`jumpCount, this`balls
      ensures startedAt == now && lastT == now && balls == []
      ensures Player() == Body(w as real / 2.0, groundY as real, 0.0, 0.0, true, 0)
    {
      startedAt := now;
      lastT := now;
      px := w as real / 2.0;
      py := groundY as real;
      vx := 0.0;
      vy := 0.0;
      onGround := true;
      jumpCount := 0;
      balls := [];
    }

    /** The body of `applyResize` after the scale is known: the new size,
        the player and every ball times `ratio`, then the player back inside
        the width and not below the ground. */
    method Rescale(newW: int, newH: int, newGroundY: int, newPw: real, newPh: real, ratio: real)
      modifies this`w, this`h, this`groundY, this`pw, this`ph, this`px, this`py, this`vx, this`vy, this`balls
      ensures w == newW && h == newH && groundY == newGroundY && pw == newPw && ph == newPh
      ensures Player() == ResizedPlayer(old(Player()), ratio, newPw, newW as real, newGroundY as real)
      ensures balls == RescaleBalls(old(balls), ratio)
    {
      w := newW;
      h := newH;
      groundY := newGroundY;
      pw := newPw;
      ph := newPh;
      ScalePlayer(ratio);
      RescaleLiveBalls(ratio);
      KeepPlayerInside();
    }

    /** The player's position and velocity times `ratio`. */
    method ScalePlayer(ratio: real)
      modifies this`px, this`py, this`vx, this`vy
      ensures Player() == ScaledBody(old(Player()), ratio)
    {
      px := px * ratio;
      py := py * ratio;
      vx := vx * ratio;
      vy := vy * ratio;
    }

    /** The ball loop of `applyResize`, rescaling every ball and trail point
        in place. */
    method RescaleLiveBalls(ratio: real)
      modifies this`balls
      ensures balls == RescaleBalls(old(balls), ratio)
    {
      ghost var target := RescaleBalls(balls, ratio);
      for i := 0 to |balls|
        invariant |balls| == |target|
        invariant forall j :: 0 <= j < i ==> balls[j] == target[j]
        invariant forall j :: i <= j < |balls| ==> balls[j] == old(balls)[j]
      {
        var b := balls[i];
        var pts := RescaleTrailPoints(b.trail, ratio);
        var scaled := b.(x := b.x * ratio, y := b.y * ratio, r := b.r * ratio,
                         vx := b.vx * ratio, vy := b.vy * ratio, g := b.g * ratio,
                         trail := pts);
        assert scaled == target[i];
        balls := balls[i := scaled];
      }
    }

    /** The closing correction of `applyResize`: back inside the width and
        not below the ground. */
    method KeepPlayerInside()
      modifies this`px, this`py
      ensures Player() == PutInside(old(Player()), pw, w as real, groundY as real)
    {
      px := Clamp(px, pw / 2.0, w as real - pw / 2.0);
      if py > groundY as real {
        py := groundY as real;
      }
    }

    /** The steering block of `step`: the dash speed while dashing, else
        the arrow keys' acceleration or friction, within the speed cap. */
    method SteerVx(left: bool, right: bool, dashOn: bool, dir: int, dt: real, sc: real)
      modifies this`vx
      ensures vx == MoveVx(old(vx), left, right, dashOn, dir, dt, sc)
    {
      if !dashOn {
        // accel * dt and friction * dt with accel, friction scaled by sc
        var v := ApplySteering(vx, left, right, Accel * sc * dt, Friction * sc * dt);
        MoveVxSteered(vx, left, right, dir, dt, sc);
        vx := Clamp(v, -(MaxSpeed * sc), MaxSpeed * sc);
      } else {
        vx := dir as real * DashSpeed * sc;
      }
    }

    /** The jump block of `step` for a pressed or released jump key. */
    method Jump(jump: bool, sc: real)
      modifies this`vy, this`jumpCount, this`onGround
      ensures Player() == JumpRule(old(Player()), jump, sc)
    {
      if jump && (onGround || jumpCount < 2) {
        vy := (if jumpCount == 0 then Jump1 else Jump2) * sc;
        jumpCount := jumpCount + 1;
        onGround := false;
      }
    }

    /** Gravity, integration, the horizontal clamp and landing, in `step`. */
    method FallAndLand(dt: real, sc: real)
      modifies this`px, this`py, this`vy, this`onGround, this`jumpCount
      ensures Player() == Fall(old(Player()), w as real, pw, groundY as real, dt, sc)
    {
      vy := vy + Gravity * sc * dt;
      px := px + vx * dt;
      py := py + vy * dt;
      px := Clamp(px, pw / 2.0, w as real - pw / 2.0);
      if py >= groundY as real {
        py := groundY as real;
        vy := 0.0;
        onGround := true;
        jumpCount := 0;
      }
    }

    /** The player part of `step`: steering, jump, gravity and landing. */
    method StepPlayer(left: bool, right: bool, jump: bool, dashOn: bool, dir: int, dt: real, sc: real)
      modifies this`px, this`py, this`vx, this`vy, this`onGround, this`jumpCount
      ensures Player() ==
        PlayerStep(old(Player()), left, right, jump, dashOn, dir, w as real, pw, groundY as real, dt, sc)
    {
      ghost var p0 := Player();
      SteerVx(left, right, dashOn, dir, dt, sc);
      ghost var p1 := Player();
      assert p1 == p0.(vx := MoveVx(p0.vx, left, right, dashOn, dir, dt, sc));
      Jump(jump, sc);
      FallAndLand(dt, sc);
    }

    /** One `spawnBall` call with draws d, `spawn` standing for the ball it
        builds: appends exactly that ball and leaves the others alone. */
    method SpawnBall(spawn: SpawnDraws -> Ball, d: SpawnDraws)
      modifies this`balls
      ensures balls == old(balls) + [spawn(d)]
    {
      balls := balls + [spawn(d)];
    }

    /** The three `spawnBall(0)` calls that end `init`. */
    method SpawnThree(spawn: SpawnDraws -> Ball, d0: SpawnDraws, d1: SpawnDraws, d2: SpawnDraws)
      modifies this`balls
      ensures balls == old(balls) + [spawn(d0), spawn(d1), spawn(d2)]
    {
      SpawnBall(spawn, d0);
      SpawnBall(spawn, d1);
      SpawnBall(spawn, d2);
    }

    /** The first loop of `ensureBallCount`: while below `target` it spawns
        if the fill roll is below `fillProb` or fewer than 3 balls exist, and
        stops otherwise; it spawns as often as `Added` says, with the draws
        0, 1, ... */
    method SpawnWhileRolled(spawn: SpawnDraws -> Ball, target: int, fillProb: real,
                            rolls: nat -> real, draws: nat -> SpawnDraws) returns (k: nat)
      modifies this`balls
      ensures k == Added(|old(balls)|, target, fillProb, rolls, 0)
      ensures balls == old(balls) + Spawned(spawn, draws, k)
    {
      ghost var n := |balls|;
      k := 0;
      while |balls| < target
        invariant |balls| == n + k
        invariant balls == old(balls) + Spawned(spawn, draws, k)
        invariant Added(n, target, fillProb, rolls, 0) == k + Added(n + k, target, fillProb, rolls, k)
        decreases target - |balls|
      {
        if rolls(k) < fillProb || |balls| < 3 {
          assert Added(n + k, target, fillProb, rolls, k) == 1 + Added(n + k + 1, target, fillProb, rolls, k + 1);
          SpawnBall(spawn, draws(k));
          k := k + 1;
        } else {
          assert Added(n + k, target, fillProb, rolls, k) == 0;
          break;
        }
      }
    }

    /** The second loop of `ensureBallCount`, continuing the spawns after
        the first k0 of them: it spawns until there are 3 balls. */
    method SpawnUpToThree(spawn: SpawnDraws -> Ball, draws: nat -> SpawnDraws, ghost base: seq<Ball>, k0: nat)
      returns (k: nat)
      requires balls == base + Spawned(spawn, draws, k0)
      modifies this`balls
      ensures k == k0 + (if |old(balls)| < 3 then 3 - |old(balls)| else 0)
      ensures balls == base + Spawned(spawn, draws, k)
    {
      k := k0;
      while |balls| < 3
        invariant balls == base + Spawned(spawn, draws, k)
        invariant k0 <= k && |balls| == |old(balls)| + (k - k0)
        invariant |old(balls)| < 3 ==> |balls| <= 3
        invariant |old(balls)| >= 3 ==> k == k0
        decreases 3 - |balls|
      {
        SpawnBall(spawn, draws(k));
        k := k + 1;
      }
    }

    /** Both loops of `ensureBallCount` for the spawner `spawn`. */
    method TopUp(spawn: SpawnDraws -> Ball, target: int, fillProb: real,
                 rolls: nat -> real, draws: nat -> SpawnDraws)
      modifies this`balls
      ensures balls == Refilled(old(balls), spawn, target, fillProb, rolls, draws)
    {
      var k := SpawnWhileRolled(spawn, target, fillProb, rolls, draws);
      k := SpawnUpToThree(spawn, draws, old(balls), k);
    }
  }

  /** The trail-point loop of `applyResize`. */
  method RescaleTrailPoints(pts: seq<TrailPt>, ratio: real) returns (out: seq<TrailPt>)
    ensures out == RescaleTrail(pts, ratio)
  {
    out := pts;
    for j := 0 to |out|
      invariant |out| == |pts|
      invariant forall m :: 0 <= m < j ==> out[m] == RescaleTrail(pts, ratio)[m]
      invariant forall m :: j <= m < |out| ==> out[m] == pts[m]
    {
      out := out[j := out[j].(x := out[j].x * ratio, y := out[j].y * ratio)];
    }
  }

  /** `dashRef.current`. */
  class DashState {
    var activeT: real
    var cooldownT: real
    var invulnT: real
    var dir: int
    var request: bool

    constructor()
      ensures Value() == Dash(0.0, 0.0, 0.0, 1, false)
    {
      activeT, cooldownT, invulnT, dir, request := 0.0, 0.0, 0.0, 1, false;
    }

    function Value(): Dash
      reads this
    {
      Dash(activeT, cooldownT, invulnT, dir, request)
    }

    /** The dash part of `init`: no dash, no cooldown, facing right. */
    method Reset()
      modifies this
      ensures Value() == Dash(0.0, 0.0, 0.0, 1, false)
    {
      activeT, cooldownT, invulnT, dir, request := 0.0, 0.0, 0.0, 1, false;
    }

    /** The dash-timer block of `step`. */
    method CountDown(dt: real)
      modifies this
      ensures Value() == Tick(old(Value()), dt)
    {
      cooldownT := Max(0.0, cooldownT - dt);
      activeT := Max(0.0, activeT - dt);
      invulnT := Max(0.0, invulnT - dt);
    }

    /** The held arrow sets the dash direction. */
    method Face(left: bool, right: bool)
      modifies this
      ensures Value() == Steer(old(Value()), left, right)
    {
      if left {
        dir := -1;
      }
      if right {
        dir := 1;
      }
    }

    /** The dash trigger of `step`. */
    method TryStart()
      modifies this
      ensures Value() == Trigger(old(Value()))
    {
      if request && cooldownT <= 0.0 && activeT <= 0.0 {
        request := false;
        activeT := DashActive;
        invulnT := DashInvuln;
        cooldownT := DashCooldown;
      } else {
        request := false;
      }
    }

    /** The dash part of `step`: timers, direction, then the trigger. */
    method Frame(dt: real, left: bool, right: bool)
      modifies this
      ensures Value() == DashStep(old(Value()), left, right, dt)
    {
      CountDown(dt);
      Face(left, right);
      TryStart();
    }
  }

  /** `keysRef.current`: the held arrows and the pending jump press. */
  class Keys {
    var left: bool
    var right: bool
    var jump: bool

    constructor()
      ensures !left && !right && !jump
    {
      left, right, jump := false, false, false;
    }
  }

  /** The arrow-key part of the steering block of `step`, for the
      per-frame increments da = accel * dt and df = friction * dt. */
  method ApplySteering(vx: real, left: bool, right: bool, da: real, df: real) returns (v: real)
    ensures v == Steered(vx, left, right, da, df)
  {
    v := vx;
    if left {
      v := v - da;
    }
    if right {
      v := v + da;
    }
    if !left && !right {
      if v > 0.0 {
        v := Max(0.0, v - df);
      }
      if v < 0.0 {
        v := Min(0.0, v + df);
      }
    }
  }

  /** The component: its refs, its scale, score and best score, and its
      game-over flag. */
  class Game {
    const state: World
    const dash: DashState
    const keys: Keys
    var scale: real
    var score: int
    var best: int
    var over: bool

    /** Everything the component keeps between frames, as one value. */
    function Snap(): Snapshot
      reads this, state, dash, keys
    {
      Snapshot(state.startedAt, state.lastT, state.w, state.h, state.groundY, state.pw, state.ph,
               state.Player(), state.balls, dash.Value(), keys.left, keys.right, keys.jump,
               scale, score, best, over)
    }

    predicate Valid()
      reads this, state, dash, keys
    {
      Inv(Snap())
    }

    /** Mounting the component with the best score read from storage. */
    constructor(storedBest: int)
      ensures Valid() && fresh(state) && fresh(dash) && fresh(keys)
      ensures scale == 1.0 && score == 0 && best == storedBest && !over
      ensures state.balls == [] && !keys.left && !keys.right && !keys.jump
    {
      state := new World();
      dash := new DashState();
      keys := new Keys();
      scale := 1.0;
      score := 0;
      best := storedBest;
      over := false;
    }

    /** `init`, with the draws of its three spawns. */
    method Init(now: real, d0: SpawnDraws, d1: SpawnDraws, d2: SpawnDraws)
      requires Valid()
      modifies this`score, state, dash
      ensures Valid()
      ensures Snap() == InitSpec(old(Snap()), now, d0, d1, d2)
    {
      ghost var s0 := Snap();
      Start(now, d0, d1, d2);
      InitKeepsInv(s0, now, d0, d1, d2);
    }

    /** The body of `init`: reset the run, then spawn three balls. */
    method Start(now: real, d0: SpawnDraws, d1: SpawnDraws, d2: SpawnDraws)
      modifies this`score, state, dash
      ensures Snap() == InitSpec(old(Snap()), now, d0, d1, d2)
    {
      ghost var s0 := Snap();
      state.Reset(now);
      score := 0;
      dash.Reset();
      assert Snap() == ResetSpec(s0, now);
      state.SpawnThree(Spawner(CurrentParams(0, scale), scale, state.w, state.groundY), d0, d1, d2);
    }

    /** `restart`: leave the game-over screen and start a new run. */
    method Restart(now: real, d0: SpawnDraws, d1: SpawnDraws, d2: SpawnDraws)
      requires Valid()
      modifies this`over, this`score, state, dash
      ensures Valid()
      ensures Snap() == InitSpec(old(Snap()).(over := false), now, d0, d1, d2)
    {
      over := false;
      Init(now, d0, d1, d2);
    }

    /** The rescaling part of `applyResize` for a container `width` wide. */
    method ApplyResize(width: real)
      requires Valid()
      modifies this`scale, state
      ensures Valid()
      ensures Snap() == ResizeSpec(old(Snap()), width)
    {
      ghost var s0 := Snap();
      var displayW := DisplayWidth(width);
      var displayH := DisplayHeight(displayW);
      var newScale := displayW as real / 900.0;
      var ratio := Ratio(newScale, scale);  // newScale / (scaleRef.current || 1)
      scale := newScale;
      state.Rescale(displayW, displayH, GroundLine(newScale), 34.0 * newScale, 48.0 * newScale, ratio);
      ResizeKeepsInv(s0, width);
    }

    /** `ensureBallCount`: spawn while below the target and the fill roll
        succeeds (always while below 3), then make sure there are 3. The
        k-th iteration of the first loop reads roll `rolls(k)`; the k-th
        spawn reads `draws(k)`. */
    method EnsureBallCount(scoreSec: int, rolls: nat -> real, draws: nat -> SpawnDraws)
      modifies state`balls
      ensures state.balls == ToppedUp(old(state.balls), scoreSec, scale, state.w, state.groundY, rolls, draws)
    {
      var p := CurrentParams(scoreSec, scale);
      var spawn := Spawner(p, scale, state.w, state.groundY);
      state.TopUp(spawn, p.targetBalls, p.fillProb, rolls, draws);
    }

    /** `updateBalls`: advance every ball one frame, then cull those beyond
        the scaled 260-unit margin. `damping(drag, dt)` stands for
        `Math.exp(-drag * 60 * dt)`. */
    method UpdateBalls(dt: real, scoreSec: int, damping: (real, real) -> real)
      modifies state`balls
      ensures state.balls == Culled(AdvanceAll(old(state.balls), CurrentParams(scoreSec, scale).windA,
                                               dt, damping, state.groundY as real, scale),
                                    state.w as real, state.h as real, Scaled(260.0, scale))
    {
      var windA := CurrentParams(scoreSec, scale).windA;
      var floorY := state.groundY as real;
      ghost var target := AdvanceAll(state.balls, windA, dt, damping, floorY, scale);
      for i := 0 to |state.balls|
        invariant |state.balls| == |target|
        invariant forall j :: 0 <= j < i ==> state.balls[j] == target[j]
        invariant forall j :: i <= j < |state.balls| ==> state.balls[j] == old(state.balls)[j]
      {
        var b := state.balls[i];
        var damp := damping(b.drag, dt);
        var n := FloorContact(Integrate(b, windA, dt, damp), floorY, scale);
        var pts := UpdateTrail(n.trail, n.x, n.y, n.trailLen);
        assert b == old(state.balls)[i];
        assert n.(trail := pts) == target[i];
        state.balls := state.balls[i := n.(trail := pts)];
      }
      assert state.balls == target;
      var margin := Scaled(260.0, scale);
      state.balls := CullBalls(state.balls, state.w as real, state.h as real, margin);
    }

    /** `gameOver`: the best score becomes the maximum of itself and the
        final score, and the run ends. */
    method GameOver(finalScore: int)
      modifies this`best, this`over
      ensures best == IMax(old(best), finalScore) && over
    {
      var nextBest := IMax(best, finalScore);
      best := nextBest;
      over := true;
    }

    /** The clock part of `step`: frame length, timestamp and whole seconds
        survived, then `ensureBallCount` for that score. */
    method Tick(t: real, rolls: nat -> real, draws: nat -> SpawnDraws) returns (dt: real, scoreSec: int)
      modifies this`score, state`lastT, state`balls
      ensures dt == FrameDt(t, old(state.lastT)) && scoreSec == ScoreAt(t, old(state.startedAt))
      ensures Snap() == TickSpec(old(Snap()), t, rolls, draws)
    {
      ghost var s0 := Snap();
      dt := FrameDt(t, state.lastT);
      state.lastT := t;
      scoreSec := ScoreAt(t, state.startedAt);
      if scoreSec != score {
        score := scoreSec;
      }
      ghost var s1 := Snap();
      assert s1 == s0.(lastT := t, score := scoreSec);
      EnsureBallCount(scoreSec, rolls, draws);
      assert Snap() == s1.(balls := state.balls);
    }

    /** The player part of `step`. */
    method Move(dt: real)
      modifies dash, state`px, state`py, state`vx, state`vy, state`onGround, state`jumpCount, keys`jump
      ensures Snap() == MoveSpec(old(Snap()), dt)
    {
      dash.Frame(dt, keys.left, keys.right);
      var dashOn := dash.activeT > 0.0;
      var sc := ScaleOr1(scale);
      state.StepPlayer(keys.left, keys.right, keys.jump, dashOn, dash.dir, dt, sc);
      keys.jump := false;
    }

    /** The end of `step`: move and cull the balls, then end the run if one
        touches a player who is not invulnerable. */
    method Settle(dt: real, scoreSec: int, damping: (real, real) -> real)
      modifies this`best, this`over, state`balls
      ensures Snap() == SettleSpec(old(Snap()), dt, scoreSec, damping)
    {
      UpdateBalls(dt, scoreSec, damping);
      CheckHit(scoreSec);
    }

    /** The collision test of `step`: game over at `scoreSec` when a ball
        touches a player who is not invulnerable. */
    method CheckHit(scoreSec: int)
      modifies this`best, this`over
      ensures Snap() == HitSpec(old(Snap()), scoreSec)
    {
      if dash.invulnT <= 0.0 {
        var hit := IntersectsPlayer(state.balls, state.px, state.py, state.pw, state.ph);
        if hit {
          GameOver(scoreSec);
        }
      }
    }

    /** `step` for the frame timestamp t. Fill rolls and spawn draws of
        `ensureBallCount` come from `rolls` and `draws`; `damping` is the drag
        factor of `updateBalls`. */
    method Step(t: real, rolls: nat -> real, draws: nat -> SpawnDraws, damping: (real, real) -> real)
      requires Valid()
      modifies this`score, this`best, this`over, state, dash, keys`jump
      ensures Valid()
      ensures Snap() == StepSpec(old(Snap()), t, rolls, draws, damping)
    {
      ghost var s0 := Snap();
      var dt, scoreSec := Tick(t, rolls, draws);
      Move(dt);
      Settle(dt, scoreSec, damping);
      StepKeepsInv(s0, t, rolls, draws, damping);
    }
  }
}
