# Dodge-jump simulation engine

A model of the simulation engine of the browser game in
`app/play/PlayClient.tsx`. The player runs and jumps along a ground line
while balls of five archetypes drop from above or sweep in from the sides;
the run ends when a ball touches the player, and the score is the number of
whole seconds survived. The model covers:

- the numeric helpers `clamp`, `lerp` and `smoothstep01`, and JavaScript's
  `Math.round` and `Math.sign` (module `Num`);
- the ball catalog and the weighted roulette `pickBallType` (module `Catalog`);
- the difficulty controller `difficultyT` / `currentParams` (module `Difficulty`);
- the ball built by `spawnBall` (module `Entities`) and the population
  top-up of `ensureBallCount` (module `Population`);
- the per-frame ball update of `updateBalls`: integration, the floor rule,
  the trail buffer and culling (module `Physics`);
- the circle-versus-rectangle test `intersectsPlayer` (module `Collision`);
- the player's state machine inside `step`: dash timers and trigger,
  steering, the double jump, gravity and landing (module `Control`);
- the state-rescaling part of `applyResize` (module `Resize`);
- `init`, `restart`, `applyResize`, `step` and `gameOver` as functions on
  one value, the component's state between two frames, with the invariant
  they keep (module `Frame`);
- the mutable objects themselves, `stateRef`, `dashRef`, `keysRef` and the
  component's scale, score, best score and game-over flag, as classes whose
  methods update their fields in place (module `Game`). Each method is
  proved to change the state exactly as the matching function of `Frame`
  or of the other modules says.

Numbers are mathematical reals. Every `Math.random()` draw is a parameter
in [0, 1): the draws of one `spawnBall` are a `SpawnDraws` record, the fill
rolls of `ensureBallCount` a stream `rolls(k)`, and the spawn draws a stream
`draws(k)`. The drag factor `Math.exp(-drag * 60 * dt)` is a parameter
function `damping(drag, dt)`. Timestamps (`performance.now()` and the
`requestAnimationFrame` time) are parameters. Balls are values held in a
sequence field that the methods reassign.

## Model

| member | source | states |
|---|---|---|
| Num.Clamp | app/play/PlayClient.tsx:12-14 | the result lies in [lo, hi] when lo <= hi, is v when v is already inside, lo below the range and hi above it |
| Num.IClamp | app/play/PlayClient.tsx:12-14 | the integer clamp used for the display width and the ball target lies in [lo, hi] and keeps values already inside |
| Num.Lerp | app/play/PlayClient.tsx:15-17 | for t in [0, 1] the result lies between a and b; t = 0 gives a and t = 1 gives b |
| Num.LerpMonotone | app/play/PlayClient.tsx:15-17 | for a <= b, lerp is non-decreasing in t |
| Num.Smoothstep01 | app/play/PlayClient.tsx:18-21 | the result lies in [0, 1], is 0 at or below 0 and 1 at or above 1 |
| Num.SmoothCubicMonotone | app/play/PlayClient.tsx:20 | the cubic t*t*(3 - 2t) is non-decreasing on [0, 1] |
| Num.SmoothstepMonotone | app/play/PlayClient.tsx:18-21 | smoothstep01 is non-decreasing on all reals |
| Num.Round | app/play/PlayClient.tsx:354 | `Math.round` returns the integer n with x - 0.5 < n <= x + 0.5 (halves round up) |
| Num.RoundMonotone | app/play/PlayClient.tsx:354 | rounding is non-decreasing |
| Num.Sign | app/play/PlayClient.tsx:605 | `Math.sign` is 1, -1 or 0 exactly when its argument is positive, negative or zero |
| Num.ScaleOr1 | app/play/PlayClient.tsx:359 | `scaleRef.current \|\| 1` is the scale itself unless it is 0, and positive for a non-negative scale |
| Catalog.CatalogSane | app/play/PlayClient.tsx:59-160 | every archetype has positive radius, gravity, velocity multipliers and weight, well-ordered ranges, and restitution and friction below 1 |
| Catalog.CumValues | app/play/PlayClient.tsx:163 | the weights add up to 100; the running sums are 0, 30, 48, 64, 86, 100 |
| Catalog.Roulette | app/play/PlayClient.tsx:165-169 | the subtracting walk over the catalog always yields a valid catalog index |
| Catalog.PickIndex | app/play/PlayClient.tsx:162-170 | the archetype picked for a draw is a valid catalog index |
| Catalog.RouletteFinds | app/play/PlayClient.tsx:165-168 | started at position i with the remainder x - Cum(i), the loop returns the first archetype at or after i whose slot (Cum(k), Cum(k + 1)] covers x |
| Catalog.SlotsDisjoint | app/play/PlayClient.tsx:59-170 | no scaled draw lies in two archetype slots |
| Catalog.PickIndexSlot | app/play/PlayClient.tsx:162-170 | for a draw u in [0, 1), archetype k is returned exactly when 100u lies in k's slot, the first whose running sum reaches 100u (so k is chosen with probability weight / 100) |
| Catalog.FallbackUnreachable | app/play/PlayClient.tsx:169 | for every draw in [0, 1] the loop itself returns, with an archetype whose slot holds the scaled draw; the fallback return is never reached |
| Catalog.PickBallType | app/play/PlayClient.tsx:162-170 | the summing loop and the subtracting loop return PickIndex(u), and for u in [0, 1) an archetype whose slot holds 100u |
| Difficulty.DifficultyT | app/play/PlayClient.tsx:346-349 | the ramp lies in [0, 1], is 0 up to second 5 and 1 from second 25 |
| Difficulty.DifficultyTMonotone | app/play/PlayClient.tsx:346-349 | the ramp is non-decreasing in the seconds survived |
| Difficulty.Extra | app/play/PlayClient.tsx:355 | the stepped bonus lies in [0, 6], is 0 before second 43 and 6 from second 133 |
| Difficulty.ExtraMonotone | app/play/PlayClient.tsx:355 | the stepped bonus is non-decreasing in the seconds survived |
| Difficulty.RampMonotone | app/play/PlayClient.tsx:361-366 | lerp plus a capped bonus is non-decreasing in both the ramp and the bonus step |
| Difficulty.RampPositive | app/play/PlayClient.tsx:361-366 | a ramped quantity lies between its low end and its high end plus the cap |
| Difficulty.ParamsSigns | app/play/PlayClient.tsx:361-366 | fillProb lies in [0.02, 0.13]; at a non-negative scale wind and base speed are positive and the extra gravity is non-negative |
| Difficulty.CurrentParams | app/play/PlayClient.tsx:351-369 | t is the ramp and extra the bonus; extra in [0, 6], targetBalls in [3, 14], fillProb in [0.02, 0.13]; wind and speed positive, extra gravity non-negative at a non-negative scale |
| Difficulty.ScaledRampMonotone | app/play/PlayClient.tsx:359-366 | scaling by a non-negative scale keeps a ramped quantity non-decreasing |
| Difficulty.TargetBallsMonotone | app/play/PlayClient.tsx:354-356 | the ball target is non-decreasing in the ramp and in the bonus |
| Difficulty.ParamsAtMonotone | app/play/PlayClient.tsx:354-366 | every output except t is non-decreasing in the ramp and the bonus |
| Difficulty.ParamsMonotone | app/play/PlayClient.tsx:351-369 | difficulty never eases off: a later second never has fewer target balls, nor less wind, base speed, fill probability, extra gravity or bonus |
| Entities.NewBall | app/play/PlayClient.tsx:371-438 | the new ball is well formed (flow direction is -1 or 1, trail holds exactly its capacity); its kind and trail capacity are those of the archetype the roulette picks; every trail point is its own position at opacity 0 |
| Entities.NewBallRanges | app/play/PlayClient.tsx:376-431 | restitution, friction and drag lie in the archetype's ranges; at a non-negative scale so does the radius, and the gravity is the archetype's scaled range shifted up by the difficulty's extra gravity gAdd |
| Entities.NewBallPlacement | app/play/PlayClient.tsx:382-417 | a drop-mode ball starts above the top edge, 70 scaled units in from both side edges (when the world is at least 140 scaled units wide), falling, drifting along its flow; a sweep-mode ball starts just outside the side it flows in from, moving inwards, between 0 and 170 scaled units above resting on the ground |
| Entities.SpawnFacts | app/play/PlayClient.tsx:386-417 | the flow direction is -1 or 1 in both spawn modes, with the per-mode position and velocity facts above |
| Entities.DropFacts | app/play/PlayClient.tsx:392-399 | in drop mode the start height is negative, vy is positive and vx has the sign of the flow |
| Entities.SweepFacts | app/play/PlayClient.tsx:400-417 | in sweep mode the ball starts outside its entry side moving inwards, at most 170 scaled units above the ground line minus its radius |
| Entities.SweepSide | app/play/PlayClient.tsx:401-404 | a left entry starts left of 0 moving right; a right entry starts right of w moving left |
| Entities.SweepAltitude | app/play/PlayClient.tsx:406-410 | both altitude choices put the ball between groundY - r - 170 * scale and groundY - r |
| Entities.LowBounds | app/play/PlayClient.tsx:406-409 | both altitude draws lie in [0, 90 + 80] scaled units |
| Entities.SweepSpeed | app/play/PlayClient.tsx:412-415 | the sweep speed times the archetype's multiplier is positive |
| Population.Added | app/play/PlayClient.tsx:629-632 | the first loop spawns nothing at or above the target, never goes past the larger of the count and the target, and always reaches 3 when the target is at least 3 |
| Population.RefillBounds | app/play/PlayClient.tsx:625-634 | after both loops there are at least 3 balls and never more than the larger of the old count and the target |
| Population.SecondLoopIdle | app/play/PlayClient.tsx:629-633 | with a target of at least 3 the second loop never spawns |
| Population.AllRollsFill | app/play/PlayClient.tsx:629-632 | when every roll succeeds the population reaches exactly the larger of the count and the target |
| Population.FailedRollStops | app/play/PlayClient.tsx:630-631 | with 3 balls or more a first failed roll stops the top-up at once |
| Population.Spawned | app/play/PlayClient.tsx:440 | c calls of `spawnBall` add exactly c balls |
| Population.SpawnedAt | app/play/PlayClient.tsx:440 | the j-th ball added is the one built from the j-th draws |
| Population.ToppedUp | app/play/PlayClient.tsx:625-634 | the old balls stay untouched and in order at the front; the count afterwards lies between 3 and the larger of the old count and the target; nothing is added once the target is reached |
| Population.ToppedUpSpawns | app/play/PlayClient.tsx:625-634 | every added ball is a fresh `spawnBall` of the current difficulty made from its own draws |
| Physics.Integrate | app/play/PlayClient.tsx:588-596 | wind along the flow and gravity are added, both velocities are multiplied by the drag factor, and the position moves by the new velocity; no other field changes |
| Physics.FreeFlight | app/play/PlayClient.tsx:588-596 | with no wind, gravity or drag, a ball keeps its velocity and moves by velocity times dt |
| Physics.SweepScenario | app/play/PlayClient.tsx:588-596 | wind 50 over 0.1 s on vx = 300 advances x by 30.5: the wind acts before the position step |
| Physics.Reflect | app/play/PlayClient.tsx:601 | a downward speed is reflected and scaled by the restitution; an upward one is kept |
| Physics.AntiStall | app/play/PlayClient.tsx:604-605 | a floor speed below the minimum becomes exactly the minimum in magnitude, in its own direction, or in the flow direction when it is 0; a speed at or above the minimum is kept |
| Physics.FrictionKeepsSign | app/play/PlayClient.tsx:602 | floor friction below 1 keeps the sign of vx |
| Physics.FloorContact | app/play/PlayClient.tsx:598-606 | a ball below the ground line is put back on it; a downward vy becomes -vy * rest (so non-positive); vx becomes vx * (1 - fric) when that is at least 120 scaled units in magnitude, and otherwise exactly 120 scaled units with the old sign of vx, or the flow's when vx was 0; restitution, friction, drag and flow are unchanged; a ball above the line is untouched |
| Physics.RestingStaysOnFloor | app/play/PlayClient.tsx:588-606 | a ball on the ground line moving up by at most g * dt is again on the line moving up by at most g * dt after the frame, so it stays on the floor across any number of frames of one fixed length dt |
| Physics.ShorterFrameLifts | app/play/PlayClient.tsx:588-606 | with frame lengths that vary (the frame time is measured each frame), a ball resting on the line bounces up at 27 after a 0.03 s frame and is lifted above the line, to 409.83, by a following 0.01 s frame |
| Physics.Settles | app/play/PlayClient.tsx:598-606 | the floor rule on a ball at or below the line moving down by at most a bound leaves it on the line, at most that fast |
| Physics.TrailAfter | app/play/PlayClient.tsx:608-610 | the trail never exceeds its capacity (and stays full once full), its head is the new position at opacity 1, and every older point is the previous one at 0.92 times the opacity |
| Physics.Decayed | app/play/PlayClient.tsx:608 | every stored opacity is multiplied by 0.92, nothing else changes |
| Physics.UpdateTrail | app/play/PlayClient.tsx:608-610 | the in-place fade loop, `unshift` and `pop` produce exactly TrailAfter |
| Physics.AdvanceBall | app/play/PlayClient.tsx:588-610 | one frame keeps a ball well formed, keeps kind, radius, gravity, flow, restitution, friction, drag and capacity, leaves it not below the ground line and heads its trail with its new position |
| Physics.AdvanceAll | app/play/PlayClient.tsx:584-611 | every ball advances by its own drag factor, in place and in order, and well-formedness is kept |
| Physics.Culled | app/play/PlayClient.tsx:613-622 | culling keeps only balls of the list that are inside the margin |
| Physics.CulledKeepsInside | app/play/PlayClient.tsx:613-622 | every ball inside the margin survives culling |
| Physics.CulledAppend | app/play/PlayClient.tsx:613-622 | culling preserves order: culling a concatenation culls each part |
| Physics.CullBalls | app/play/PlayClient.tsx:613-622 | the reverse-index `splice` loop leaves exactly Culled of the list |
| Physics.CullStep | app/play/PlayClient.tsx:615-621 | one iteration either keeps ball i or splices it out, extending the culled suffix by one position |
| Collision.IntersectsPlayer | app/play/PlayClient.tsx:565-580 | the scan returns true exactly when some ball's squared distance to its centre clamped into the player box is at most r squared |
| Collision.CentreInsideTouches | app/play/PlayClient.tsx:565-580 | a ball whose centre lies in the player box always collides |
| Collision.BeyondEdgeMisses | app/play/PlayClient.tsx:565-580 | a ball more than its radius beyond an edge of the box, outwards, never collides |
| Control.TickTimer | app/play/PlayClient.tsx:667-669 | a timer counts down by dt and stops at 0, never negative |
| Control.Tick | app/play/PlayClient.tsx:666-669 | the three dash timers are never negative after a frame; direction and request are kept |
| Control.Steer | app/play/PlayClient.tsx:671-673 | the dash faces right while right is held, left while only left is held, and keeps its direction otherwise; nothing else changes |
| Control.Trigger | app/play/PlayClient.tsx:675-687 | the request is always consumed; a dash that fires sets active, invulnerable and cooldown times to 0.12, 0.08 and 0.75; otherwise only the request changes |
| Control.DashStep | app/play/PlayClient.tsx:666-687 | after the dash part of a frame the timers are non-negative, there is no pending request and the direction is still -1 or 1 |
| Control.DashStartsIff | app/play/PlayClient.tsx:666-680 | a dash starts in a frame exactly when it was requested and both cooldown and active time run out by the end of the tick |
| Control.CooldownSpacing | app/play/PlayClient.tsx:666-687 | right after a dash starts, however often the key is pressed, after k frames the cooldown is 0.75 - k * dt, and no dash starts in any frame while k * dt < 0.75 |
| Control.MoveVx | app/play/PlayClient.tsx:697-709 | while dashing vx is dir * 980 * scale; otherwise it is within the scaled maximum speed |
| Control.FrictionTowardsZero | app/play/PlayClient.tsx:701-704 | with no arrow held, friction moves vx towards 0 without crossing it |
| Control.BothArrowsCancel | app/play/PlayClient.tsx:698-706 | holding both arrows leaves a capped speed unchanged |
| Control.HoldRightSaturates | app/play/PlayClient.tsx:697-706 | holding right for k frames gives min(max speed, vx + the k increments accel * dt), and those increments add up to k * accel * dt: it accelerates linearly and then saturates |
| Control.JumpRule | app/play/PlayClient.tsx:711-721 | without a press nothing changes; a press with fewer than 2 jumps gives the first or second impulse, counts it and leaves the ground; a third press is ignored; the 0/1/2 counter stays consistent |
| Control.DoubleJumpLimit | app/play/PlayClient.tsx:711-721 | from the ground the first press uses jump1, the second jump2, both upwards, and a third press before landing changes nothing |
| Control.Fall | app/play/PlayClient.tsx:723-737 | vx is kept and px becomes px + vx * dt clamped to [pw/2, w - pw/2]; py does not end below the ground; landing snaps to the ground with vy = 0, grounded and 0 jumps; otherwise gravity and integration apply and the jump state is kept |
| Control.StandingStays | app/play/PlayClient.tsx:723-737 | a player standing still on the ground stays there, grounded |
| Control.PlayerStep | app/play/PlayClient.tsx:689-737 | after the player part of a frame, px is within the width, py is not below the ground and the jump counter is consistent |
| Control.PlayerStepHorizontal | app/play/PlayClient.tsx:697-730 | after the player part of a frame, vx is the steered speed and px is the old px plus that speed times dt, clamped to the world |
| Resize.DisplayWidth | app/play/PlayClient.tsx:290 | the display width is the floored container width clamped to [320, 900] |
| Resize.DisplayHeight | app/play/PlayClient.tsx:291-292 | the height is the width times the base aspect ratio 520 / 900, rounded down; at the base width it is the base height 520 |
| Resize.GroundLine | app/play/PlayClient.tsx:304 | the ground line is 420 times the scale, floored (420 at scale 1) |
| Resize.RatioRoundTrip | app/play/PlayClient.tsx:294-296 | the ratios of resizing a to b and back multiply to 1 |
| Resize.RatioSame | app/play/PlayClient.tsx:294-296 | resizing to the same positive scale has ratio 1 |
| Resize.RescaleTrail | app/play/PlayClient.tsx:325-328 | every trail position is multiplied by the ratio and every opacity kept |
| Resize.RescaleBall | app/play/PlayClient.tsx:316-329 | position, radius, velocity, gravity and trail positions are multiplied by the ratio; kind, restitution, friction, drag, flow and capacity are untouched; well-formedness is kept |
| Resize.RescaleBalls | app/play/PlayClient.tsx:316-330 | every ball is rescaled, in place and in order |
| Resize.ResizedPlayerInside | app/play/PlayClient.tsx:310-313 | whatever the ratio, the resized player is inside the width and not below the ground, with velocity times the ratio and its jump state kept; a scaled position already inside is not moved |
| Resize.ResizedPlayerIdentity | app/play/PlayClient.tsx:310-342 | a resize with ratio 1 leaves a player who is inside unchanged |
| Resize.GroundedRoundTripDrifts | app/play/PlayClient.tsx:304-342 | the player, unlike the balls, is not restored by a round trip: a player on the ground at width 900 resized to 320 and back stands at y = 419.0625, above the ground line 420, and is still marked as grounded, because the ground line is floored and the player clamped to it |
| Resize.RescaleBallsWellFormed | app/play/PlayClient.tsx:316-330 | rescaling keeps every ball well formed |
| Resize.RescaleIdentity | app/play/PlayClient.tsx:316-330 | a resize with ratio 1 changes no ball |
| Resize.RescaleRoundTrip | app/play/PlayClient.tsx:316-330 | resizing by k and then by 1/k restores every ball exactly |
| Resize.BallRoundTrip | app/play/PlayClient.tsx:316-330 | one ball resized by k and then by 1/k has its x, y, r, vx, vy, g and trail points back |
| Frame.FrameDt | app/play/PlayClient.tsx:655 | the frame length is the true elapsed time up to 33 ms and exactly 0.033 s beyond it; non-negative for a later timestamp |
| Frame.ScoreAt | app/play/PlayClient.tsx:658 | the score is the whole seconds since the start: floor of the elapsed milliseconds over 1000, non-negative after the start |
| Frame.InitKeepsInv | app/play/PlayClient.tsx:443-471 | `init` keeps the invariant and leaves exactly three well-formed balls, a score of 0, the clock at now, a player standing still in the middle of the ground, all dash timers at 0 facing right with no request, and the size, keys, best score and game-over flag untouched |
| Frame.ResizeKeepsInv | app/play/PlayClient.tsx:280-342 | a resize from any consistent state establishes the invariant for the new width and leaves the clock, dash, score, best score, game-over flag and ball count untouched |
| Frame.ResizeSameWidth | app/play/PlayClient.tsx:280-342 | resizing to the width the world already has changes nothing |
| Frame.TickKeepsInv | app/play/PlayClient.tsx:655-664 | the clock part of a frame, including the top-up, keeps the invariant |
| Frame.MoveKeepsInv | app/play/PlayClient.tsx:666-737 | the player part of a frame keeps the invariant |
| Frame.SettleKeepsInv | app/play/PlayClient.tsx:739-749 | the ball update, culling and collision test keep the invariant |
| Frame.StepKeepsInv | app/play/PlayClient.tsx:648-756 | one whole `step` keeps the invariant |
| Frame.StepOutcome | app/play/PlayClient.tsx:648-756 | after a frame the timestamp is recorded and the score is the whole seconds survived; size, start time and held arrows are untouched; the jump press and dash request are consumed; the run is over exactly when it was or a ball touches a player who is not invulnerable, and then best = max(best, score); otherwise best is unchanged |
| Frame.DashShields | app/play/PlayClient.tsx:675-749 | the frame in which a dash starts cannot end the run: the player is invulnerable before the collision test |
| Frame.StepBallBound | app/play/PlayClient.tsx:625-634 | after a frame there are never more balls than before it or than the current target, whichever is larger |
| Game.World.constructor | app/play/PlayClient.tsx:256-274 | the initial world is the base size with the player centred on the ground, still, and no balls |
| Game.World.Reset | app/play/PlayClient.tsx:443-456 | the clock restarts at now, the player stands still in the middle of the ground and the balls are cleared |
| Game.World.Rescale | app/play/PlayClient.tsx:300-342 | the new size is stored, the player becomes ResizedPlayer and the balls RescaleBalls of the old ones |
| Game.World.ScalePlayer | app/play/PlayClient.tsx:310-313 | the player's position and velocity are multiplied by the ratio |
| Game.World.RescaleLiveBalls | app/play/PlayClient.tsx:316-330 | the in-place ball loop leaves exactly RescaleBalls of the old balls |
| Game.World.KeepPlayerInside | app/play/PlayClient.tsx:341-342 | the player is clamped into the width and lifted to the ground |
| Game.World.SteerVx | app/play/PlayClient.tsx:697-709 | the steering block leaves vx = MoveVx of the old vx |
| Game.World.Jump | app/play/PlayClient.tsx:711-721 | the jump block leaves the player as JumpRule says |
| Game.World.FallAndLand | app/play/PlayClient.tsx:723-737 | gravity, integration, the clamp and landing leave the player as Fall says |
| Game.World.StepPlayer | app/play/PlayClient.tsx:697-737 | the player part of `step` leaves the player as PlayerStep says |
| Game.World.SpawnBall | app/play/PlayClient.tsx:440 | a spawn appends exactly one ball and leaves the existing ones unchanged |
| Game.World.SpawnThree | app/play/PlayClient.tsx:468-470 | the three spawns of `init` append exactly three balls, in order |
| Game.World.SpawnWhileRolled | app/play/PlayClient.tsx:629-632 | the first loop spawns exactly Added times, with draws 0, 1, ..., after the untouched old balls |
| Game.World.SpawnUpToThree | app/play/PlayClient.tsx:633 | the second loop spawns exactly as many balls as are missing to 3, continuing the draws |
| Game.World.TopUp | app/play/PlayClient.tsx:629-633 | both loops leave the old balls followed by the Refill spawns |
| Game.RescaleTrailPoints | app/play/PlayClient.tsx:325-328 | the trail-point loop leaves exactly RescaleTrail |
| Game.DashState.constructor | app/play/PlayClient.tsx:240-246 | the dash starts idle, facing right, with no request |
| Game.DashState.Reset | app/play/PlayClient.tsx:461-465 | `init` clears the dash: no timers, facing right, no request |
| Game.DashState.CountDown | app/play/PlayClient.tsx:666-669 | the timers become Tick of the old dash |
| Game.DashState.Face | app/play/PlayClient.tsx:671-673 | the direction becomes Steer of the old dash |
| Game.DashState.TryStart | app/play/PlayClient.tsx:675-687 | the dash becomes Trigger of the old dash |
| Game.DashState.Frame | app/play/PlayClient.tsx:666-687 | the whole dash part of `step` yields DashStep of the old dash |
| Game.Keys.constructor | app/play/PlayClient.tsx:226 | no key is held and no jump is pending at mount |
| Game.ApplySteering | app/play/PlayClient.tsx:698-704 | the arrow-key updates yield Steered of the old vx |
| Game.Game.constructor | app/play/PlayClient.tsx:226-274 | the mounted component satisfies the invariant, at scale 1, score 0, the stored best score, not over and with no balls |
| Game.Game.Init | app/play/PlayClient.tsx:443-471 | `init` keeps the invariant and leaves the state InitSpec says |
| Game.Game.Start | app/play/PlayClient.tsx:445-470 | the body of `init` leaves the state InitSpec says |
| Game.Game.Restart | app/play/PlayClient.tsx:473-478 | `restart` clears the game-over flag, then does `init` |
| Game.Game.ApplyResize | app/play/PlayClient.tsx:280-342 | a resize keeps the invariant and leaves the state ResizeSpec says |
| Game.Game.EnsureBallCount | app/play/PlayClient.tsx:625-634 | the balls become ToppedUp of the old ones |
| Game.Game.UpdateBalls | app/play/PlayClient.tsx:582-623 | the per-ball loop and the cull leave Culled of AdvanceAll of the old balls |
| Game.Game.GameOver | app/play/PlayClient.tsx:636-638 | the best score becomes max(best, final score) and the run ends |
| Game.Game.Tick | app/play/PlayClient.tsx:655-664 | returns the frame length and score, and leaves the state TickSpec says |
| Game.Game.Move | app/play/PlayClient.tsx:666-737 | the dash and player part of `step` leaves the state MoveSpec says and consumes the jump press |
| Game.Game.Settle | app/play/PlayClient.tsx:739-749 | the ball update and collision test leave the state SettleSpec says |
| Game.Game.CheckHit | app/play/PlayClient.tsx:741-749 | a ball touching a player who is not invulnerable ends the run at the current score; otherwise nothing changes |
| Game.Game.Step | app/play/PlayClient.tsx:648-756 | one `step` keeps the invariant and leaves the state StepSpec says |

## Left out

- Rendering: `drawBackground`, `drawBall`, `drawPlayer`, the canvas pixel size and device-pixel-ratio transform of `applyResize`, and the colour and glow strings of the catalog and of balls.
- React and browser plumbing: hooks, the mobile-detection effect, keyboard and touch-screen handlers (including `tapJump` and its `setTimeout`), the ResizeObserver, and JSX. These set the keys and the dash request that the model takes as given state.
- `requestAnimationFrame`/`cancelAnimationFrame` scheduling: `step` re-scheduling itself and `gameOver` cancelling it are not modelled; timestamps are parameters.
- `setScoreUI`, `setBestUI` and `setIsGameOver` only mirror refs into React state for display; the model keeps the ref values.
- `readBest`/`writeBest` (localStorage): the stored best score is a constructor parameter, and writing it back is not modelled.
- The early returns of `applyResize` and `step` when the stage, canvas or 2-D context is missing.
- Floating point: all arithmetic is over mathematical reals, so IEEE rounding, NaN and Infinity are not captured.
- `Math.random()` draws are parameters in [0, 1), and `Math.exp(-drag * 60 * dt)` is the parameter function `damping`.
- `spawnBall` reading `scaleRef.current`, `currentParams` and `stateRef` is modelled by passing the scale, the parameters and the world size in; inside the `World` methods the built ball is an opaque spawner function, and `Population.Spawner` says which one `init` and `ensureBallCount` pass.
- Balls are values in a sequence that the methods reassign, not shared mutable objects; aliasing of ball objects is not captured (the source never shares them).
- Control.CooldownSpacing: stated for frames of one fixed length dt with no arrows held, not for arbitrary frame sequences.
- Control.HoldRightSaturates: stated for frames of one fixed length dt, starting from a speed within the cap.
- Physics.RestingStaysOnFloor: stated for frames of one fixed length dt; a frame shorter than the one before can lift a resting ball above the line (Physics.ShorterFrameLifts).
