/** The player's state machine inside `step`: dash timers and trigger,
    horizontal steering with acceleration, friction and a speed cap, the
    double jump, gravity and landing. Every quantity is in display units;
    `sc` is the display scale as `step` reads it (`scaleRef.current || 1`). */
module Control {
  import opened Num

  // The player constants of `BASE`, in base units.
  const Accel := 3000.0
  const Friction := 2300.0
  const MaxSpeed := 390.0
  const Jump1 := -640.0
  const Jump2 := -560.0
  const Gravity := 2100.0
  const DashSpeed := 980.0
  const DashActive := 0.12
  const DashInvuln := 0.08
  const DashCooldown := 0.75

  // ---------------------------------------------------------------- dash

  /** The fields of `dashRef`. */
  datatype Dash = Dash(activeT: real, cooldownT: real, invulnT: real, dir: int, request: bool)

  /** One timer after a frame of length dt: counts down and stops at 0. */
  function TickTimer(t: real, dt: real): (n: real)
    ensures n >= 0.0
    ensures t - dt >= 0.0 ==> n == t - dt
    ensures t - dt < 0.0 ==> n == 0.0
  {
    Max(0.0, t - dt)
  }

  /** The three dash timers after a frame. */
  function Tick(d: Dash, dt: real): (n: Dash)
    ensures n.activeT >= 0.0 && n.cooldownT >= 0.0 && n.invulnT >= 0.0
    ensures n.dir == d.dir && n.request == d.request
  {
    d.(activeT := TickTimer(d.activeT, dt),
       cooldownT := TickTimer(d.cooldownT, dt),
       invulnT := TickTimer(d.invulnT, dt))
  }

  /** The dash direction follows the held arrow; right wins when both are held. */
  function Steer(d: Dash, left: bool, right: bool): (n: Dash)
    ensures n.(dir := d.dir) == d
    ensures right ==> n.dir == 1
    ensures left && !right ==> n.dir == -1
    ensures !left && !right ==> n.dir == d.dir
  {
    var d1 := if left then d.(dir := -1) else d;
    if right then d1.(dir := 1) else d1
  }

  /** A requested dash starts only when neither the cooldown nor a dash is running. */
  predicate Fires(d: Dash)
  {
    d.request && d.cooldownT <= 0.0 && d.activeT <= 0.0
  }

  /** The dash trigger: the request is consumed whether or not a dash starts. */
  function Trigger(d: Dash): (n: Dash)
    ensures !n.request && n.dir == d.dir
    ensures Fires(d) ==>
      n.activeT == DashActive && n.invulnT == DashInvuln && n.cooldownT == DashCooldown
    ensures !Fires(d) ==> n == d.(request := false)
  {
    if Fires(d) then
      Dash(DashActive, DashCooldown, DashInvuln, d.dir, false)
    else
      d.(request := false)
  }

  /** The whole dash part of one frame. */
  function DashStep(d: Dash, left: bool, right: bool, dt: real): (n: Dash)
    ensures n.activeT >= 0.0 && n.cooldownT >= 0.0 && n.invulnT >= 0.0
    ensures !n.request
    ensures (d.dir == 1 || d.dir == -1) ==> (n.dir == 1 || n.dir == -1)
  {
    Trigger(Steer(Tick(d, dt), left, right))
  }

  /** A dash starts in a frame exactly when it was requested and both the
      cooldown and the active time have run out by the end of the tick. */
  lemma DashStartsIff(d: Dash, left: bool, right: bool, dt: real)
    ensures Fires(Steer(Tick(d, dt), left, right)) <==>
      d.request && d.cooldownT - dt <= 0.0 && d.activeT - dt <= 0.0
  {
  }

  /** k frames in which the dash key is pressed again before every frame and
      no arrow is held. */
  function Mashing(d: Dash, dt: real, k: nat): Dash
  {
    if k == 0 then d else DashStep(Mashing(d, dt, k - 1).(request := true), false, false, dt)
  }

  /** Dashes are at least the cooldown apart: right after a dash starts,
      however often the key is pressed, the cooldown just counts down by dt
      per frame, so no new dash starts while fewer than 0.75 seconds have
      passed. */
  lemma CooldownSpacing(d: Dash, dt: real, k: nat)
    requires d.cooldownT == DashCooldown
    requires 0.0 < dt && k as real * dt < DashCooldown
    ensures Mashing(d, dt, k).cooldownT == DashCooldown - k as real * dt
    ensures k > 0 ==> !Fires(Steer(Tick(Mashing(d, dt, k - 1).(request := true), dt), false, false))
  {
    TimesIsProduct(k, dt);
    CooldownCountdown(d, dt, k);
  }

  /** CooldownSpacing with the k frames added up one by one. */
  lemma {:induction false} CooldownCountdown(d: Dash, dt: real, k: nat)
    requires d.cooldownT == DashCooldown
    requires 0.0 < dt && Times(k, dt) < DashCooldown
    ensures Mashing(d, dt, k).cooldownT == DashCooldown - Times(k, dt)
    ensures k > 0 ==> !Fires(Steer(Tick(Mashing(d, dt, k - 1).(request := true), dt), false, false))
  {
    if k > 0 {
      CooldownCountdown(d, dt, k - 1);
      var e := Mashing(d, dt, k - 1).(request := true);
      var s := Steer(Tick(e, dt), false, false);
      assert s.cooldownT == DashCooldown - Times(k, dt);
    }
  }

  // ------------------------------------------------------------ movement

  /** The horizontal speed after the steering part of `step`. While a dash
      is active the speed is forced to the dash speed in the dash direction;
      otherwise the held arrows accelerate, releasing both applies friction
      towards 0, and the result is capped at the maximum speed. */
  function MoveVx(vx: real, left: bool, right: bool, dashOn: bool, dir: int, dt: real, sc: real): (v: real)
    ensures dashOn ==> v == dir as real * DashSpeed * sc
    ensures !dashOn && sc > 0.0 ==> -MaxSpeed * sc <= v <= MaxSpeed * sc
  {
    if dashOn then
      dir as real * DashSpeed * sc
    else
      Clamp(Steered(vx, left, right, Accel * sc * dt, Friction * sc * dt), -(MaxSpeed * sc), MaxSpeed * sc)
  }

  /** MoveVx outside a dash, in terms of the per-frame increments: an
      unfolding aid for World.SteerVx, which applies those increments step
      by step. */
  lemma MoveVxSteered(vx: real, left: bool, right: bool, dir: int, dt: real, sc: real)
    ensures MoveVx(vx, left, right, false, dir, dt, sc) ==
      Clamp(Steered(vx, left, right, Accel * sc * dt, Friction * sc * dt), -(MaxSpeed * sc), MaxSpeed * sc)
  {
  }

  /** Acceleration by `da` per held arrow, or with both arrows released,
      friction by `df` towards 0 without crossing it. */
  function Steered(vx: real, left: bool, right: bool, da: real, df: real): real
  {
    var v1 := if left then vx - da else vx;
    var v2 := if right then v1 + da else v1;
    var v3 := if !left && !right && v2 > 0.0 then Max(0.0, v2 - df) else v2;
    if !left && !right && v3 < 0.0 then Min(0.0, v3 + df) else v3
  }

  /** Friction never reverses the player: with no arrow held the speed moves
      towards 0 without crossing it. */
  lemma FrictionTowardsZero(vx: real, dir: int, dt: real, sc: real)
    requires 0.0 <= dt && 0.0 < sc && -MaxSpeed * sc <= vx <= MaxSpeed * sc
    ensures var v := MoveVx(vx, false, false, false, dir, dt, sc);
      (vx >= 0.0 ==> 0.0 <= v <= vx) && (vx <= 0.0 ==> vx <= v <= 0.0)
  {
    MulNonneg(Friction * sc, dt);
  }

  /** Holding both arrows cancels out: the speed only gets capped. */
  lemma BothArrowsCancel(vx: real, dir: int, dt: real, sc: real)
    requires 0.0 < sc && -MaxSpeed * sc <= vx <= MaxSpeed * sc
    ensures MoveVx(vx, true, true, false, dir, dt, sc) == vx
  {
  }

  /** k frames of holding the right arrow with no dash. */
  function HoldRight(vx: real, dt: real, sc: real, k: nat): real
  {
    if k == 0 then vx else MoveVx(HoldRight(vx, dt, sc, k - 1), false, true, false, 1, dt, sc)
  }

  /** Holding right accelerates by `accel * dt` per frame until the speed
      saturates at the maximum, where it stays: after k frames the speed is
      the cap or the start speed plus the k increments, which add up to
      k * accel * dt. */
  lemma HoldRightSaturates(vx: real, dt: real, sc: real, k: nat)
    requires 0.0 < sc && 0.0 <= dt && -MaxSpeed * sc <= vx <= MaxSpeed * sc
    ensures HoldRight(vx, dt, sc, k) == Min(MaxSpeed * sc, vx + Times(k, Accel * sc * dt))
    ensures Times(k, Accel * sc * dt) == k as real * (Accel * sc * dt)
  {
    HoldRightSum(vx, dt, sc, k);
    TimesIsProduct(k, Accel * sc * dt);
  }

  /** HoldRightSaturates frame by frame. */
  lemma {:induction false} HoldRightSum(vx: real, dt: real, sc: real, k: nat)
    requires 0.0 < sc && 0.0 <= dt && -MaxSpeed * sc <= vx <= MaxSpeed * sc
    ensures HoldRight(vx, dt, sc, k) == Min(MaxSpeed * sc, vx + Times(k, Accel * sc * dt))
  {
    var a := Accel * sc * dt;
    var m := MaxSpeed * sc;
    MulNonneg(Accel * sc, dt);
    if k > 0 {
      HoldRightSum(vx, dt, sc, k - 1);
      var prev := HoldRight(vx, dt, sc, k - 1);
      TimesNonneg(k - 1, a);
      assert HoldRight(vx, dt, sc, k) == Clamp(prev + a, -m, m);
    }
  }

  // ----------------------------------------------------- jumping, falling

  /** The player fields of `stateRef` that `step` updates. (px, py) is the
      middle of the player's feet. */
  datatype Body = Body(px: real, py: real, vx: real, vy: real, onGround: bool, jumpCount: int)

  /** At most two jumps between landings, and none counted while grounded. */
  predicate AirOk(p: Body)
  {
    0 <= p.jumpCount <= 2 && (p.onGround ==> p.jumpCount == 0)
  }

  /** The jump impulse for the next jump: the first jump is stronger. */
  function JumpSpeed(jumpCount: int, sc: real): real
  {
    (if jumpCount == 0 then Jump1 else Jump2) * sc
  }

  /** The jump part of `step` for a pressed or released jump key. */
  function JumpRule(p: Body, jump: bool, sc: real): (n: Body)
    ensures n.px == p.px && n.py == p.py && n.vx == p.vx
    ensures !jump ==> n == p
    ensures AirOk(p) ==> AirOk(n)
    ensures AirOk(p) && jump && p.jumpCount < 2 ==>
      n.jumpCount == p.jumpCount + 1 && !n.onGround && n.vy == JumpSpeed(p.jumpCount, sc)
    ensures AirOk(p) && p.jumpCount == 2 ==> n == p
  {
    if jump && (p.onGround || p.jumpCount < 2) then
      p.(vy := JumpSpeed(p.jumpCount, sc), jumpCount := p.jumpCount + 1, onGround := false)
    else
      p
  }

  /** The double jump: from the ground, the first press jumps with `jump1`,
      a second press in the air with `jump2`, and a third press before
      landing is ignored. Both impulses point upwards. */
  lemma DoubleJumpLimit(p: Body, sc: real)
    requires AirOk(p) && p.onGround && 0.0 < sc
    ensures var p1 := JumpRule(p, true, sc);
      var p2 := JumpRule(p1, true, sc);
      p1.vy == Jump1 * sc < 0.0 && p2.vy == Jump2 * sc < 0.0 &&
      p2.jumpCount == 2 && !p2.onGround && JumpRule(p2, true, sc) == p2
  {
  }

  /** Gravity, integration, the horizontal clamp and the landing rule, for a
      world of width w with ground line groundY and a player of width pw. */
  function Fall(p: Body, w: real, pw: real, groundY: real, dt: real, sc: real): (n: Body)
    ensures pw / 2.0 <= w - pw / 2.0 ==> pw / 2.0 <= n.px <= w - pw / 2.0
    ensures n.py <= groundY
    ensures n.px == Clamp(p.px + p.vx * dt, pw / 2.0, w - pw / 2.0) && n.vx == p.vx
    ensures AirOk(p) ==> AirOk(n)
    ensures Landing(p, groundY, dt, sc) ==>
      n.py == groundY && n.vy == 0.0 && n.onGround && n.jumpCount == 0
    ensures !Landing(p, groundY, dt, sc) ==>
      n.vy == p.vy + Gravity * sc * dt && n.py == p.py + n.vy * dt &&
      n.onGround == p.onGround && n.jumpCount == p.jumpCount
  {
    var vy := p.vy + Gravity * sc * dt;
    var px := Clamp(p.px + p.vx * dt, pw / 2.0, w - pw / 2.0);
    var py := p.py + vy * dt;
    if py >= groundY then
      Body(px, groundY, p.vx, 0.0, true, 0)
    else
      Body(px, py, p.vx, vy, p.onGround, p.jumpCount)
  }

  /** The player reaches the ground line in this frame. */
  predicate Landing(p: Body, groundY: real, dt: real, sc: real)
  {
    p.py + (p.vy + Gravity * sc * dt) * dt >= groundY
  }

  /** A player standing on the ground with no vertical speed stays there. */
  lemma StandingStays(p: Body, w: real, pw: real, groundY: real, dt: real, sc: real)
    requires p.py == groundY && p.vy == 0.0 && 0.0 <= dt && 0.0 < sc
    ensures var n := Fall(p, w, pw, groundY, dt, sc);
      n.py == groundY && n.vy == 0.0 && n.onGround && n.jumpCount == 0
  {
    MulNonneg(Gravity * sc, dt);
    MulNonneg(Gravity * sc * dt, dt);
    assert (p.vy + Gravity * sc * dt) * dt == Gravity * sc * dt * dt;
    assert Landing(p, groundY, dt, sc);
  }

  /** The player part of one frame: steering, jump, then gravity and landing. */
  function PlayerStep(p: Body, left: bool, right: bool, jump: bool, dashOn: bool, dir: int,
                      w: real, pw: real, groundY: real, dt: real, sc: real): (n: Body)
    ensures pw / 2.0 <= w - pw / 2.0 ==> pw / 2.0 <= n.px <= w - pw / 2.0
    ensures n.py <= groundY
    ensures AirOk(p) ==> AirOk(n)
  {
    var v := MoveVx(p.vx, left, right, dashOn, dir, dt, sc);
    var jumped := JumpRule(p.(vx := v), jump, sc);
    Fall(jumped, w, pw, groundY, dt, sc)
  }

  /** Horizontally, the player part of a frame moves the player by the
      steered speed, clamped to the world, and keeps that speed. */
  lemma PlayerStepHorizontal(p: Body, left: bool, right: bool, jump: bool, dashOn: bool, dir: int,
                             w: real, pw: real, groundY: real, dt: real, sc: real)
    ensures PlayerStep(p, left, right, jump, dashOn, dir, w, pw, groundY, dt, sc).vx ==
      MoveVx(p.vx, left, right, dashOn, dir, dt, sc)
    ensures PlayerStep(p, left, right, jump, dashOn, dir, w, pw, groundY, dt, sc).px ==
      Clamp(p.px + MoveVx(p.vx, left, right, dashOn, dir, dt, sc) * dt, pw / 2.0, w - pw / 2.0)
  {
    JumpThenFall(p, MoveVx(p.vx, left, right, dashOn, dir, dt, sc), jump, w, pw, groundY, dt, sc);
  }

  lemma JumpThenFall(p: Body, v: real, jump: bool, w: real, pw: real, groundY: real, dt: real, sc: real)
    ensures var n := Fall(JumpRule(p.(vx := v), jump, sc), w, pw, groundY, dt, sc);
      n.vx == v && n.px == Clamp(p.px + v * dt, pw / 2.0, w - pw / 2.0)
  {
  }
}
