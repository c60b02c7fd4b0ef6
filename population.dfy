/** The population top-up of `ensureBallCount`: how many balls it spawns for
    a given stream of fill rolls, and the list it leaves behind. */
module Population {
  import opened Num
  import opened Difficulty
  import opened Entities

  /** Spawns made by the first loop, starting with n balls and at roll k:
      while below target, each iteration draws a roll and spawns if the roll
      is below fillProb or fewer than 3 balls exist, and stops otherwise. */
  function Added(n: nat, target: int, fillProb: real, rolls: nat -> real, k: nat): (c: nat)
    ensures n >= target ==> c == 0
    ensures n + c <= IMax(n, target)
    ensures n < 3 <= target ==> n + c >= 3
    decreases target - n
  {
    if n >= target then 0
    else if rolls(k) < fillProb || n < 3 then 1 + Added(n + 1, target, fillProb, rolls, k + 1)
    else 0
  }

  /** Spawns made by both loops: the second loop tops up to 3 whatever the
      first one did. */
  function Refill(n: nat, target: int, fillProb: real, rolls: nat -> real): (c: nat)
  {
    var c1 := Added(n, target, fillProb, rolls, 0);
    c1 + (if n + c1 < 3 then 3 - (n + c1) else 0)
  }

  /** After the top-up there are at least 3 balls and never more than the
      larger of the old count and the target. */
  lemma RefillBounds(n: nat, target: int, fillProb: real, rolls: nat -> real)
    requires 3 <= target
    ensures 3 <= n + Refill(n, target, fillProb, rolls) <= IMax(n, target)
  {
  }

  /** With a target of at least 3 (always the case, see `CurrentParams`) the
      second loop of `ensureBallCount` never spawns: the first loop already
      ignores its rolls below 3 balls. */
  lemma SecondLoopIdle(n: nat, target: int, fillProb: real, rolls: nat -> real)
    requires 3 <= target
    ensures Refill(n, target, fillProb, rolls) == Added(n, target, fillProb, rolls, 0)
  {
  }

  /** When every roll succeeds the population reaches the target exactly. */
  lemma {:induction false} AllRollsFill(n: nat, target: int, fillProb: real, rolls: nat -> real, k: nat)
    requires forall j :: rolls(j) < fillProb
    ensures n + Added(n, target, fillProb, rolls, k) == IMax(n, target)
    decreases target - n
  {
    if n < target {
      AllRollsFill(n + 1, target, fillProb, rolls, k + 1);
    }
  }

  /** With 3 balls or more, a first roll at or above fillProb stops the
      top-up at once. */
  lemma FailedRollStops(n: nat, target: int, fillProb: real, rolls: nat -> real)
    requires 3 <= n && rolls(0) >= fillProb
    ensures Refill(n, target, fillProb, rolls) == 0
  {
  }

  /** `spawnBall` as a function of its draws, for the difficulty p and the
      world size and scale it reads. */
  function Spawner(p: Params, scale: real, w: int, groundY: int): SpawnDraws -> Ball
  {
    d => NewBall(p, scale, w, groundY, d)
  }

  /** The balls that c calls of `spawn` with draws 0 .. c - 1 create, in
      order. */
  function Spawned(spawn: SpawnDraws -> Ball, draws: nat -> SpawnDraws, c: nat): (s: seq<Ball>)
    ensures |s| == c
  {
    if c == 0 then [] else Spawned(spawn, draws, c - 1) + [spawn(draws(c - 1))]
  }

  /** The j-th spawn uses the j-th draws. */
  lemma {:induction false} SpawnedAt(spawn: SpawnDraws -> Ball, draws: nat -> SpawnDraws, c: nat, j: nat)
    requires j < c
    ensures Spawned(spawn, draws, c)[j] == spawn(draws(j))
  {
    if j < c - 1 {
      SpawnedAt(spawn, draws, c - 1, j);
    }
  }

  /** The old balls followed by the spawns of both loops, for any spawner. */
  function Refilled(balls: seq<Ball>, spawn: SpawnDraws -> Ball, target: int, fillProb: real,
                    rolls: nat -> real, draws: nat -> SpawnDraws): seq<Ball>
  {
    balls + Spawned(spawn, draws, Refill(|balls|, target, fillProb, rolls))
  }

  /** The list `ensureBallCount` leaves: the old balls, untouched and in
      order, followed by the new spawns; at least 3 balls, never more than
      the larger of the old count and the target, and nothing new once the
      target is reached. */
  function ToppedUp(balls: seq<Ball>, scoreSec: int, scale: real, w: int, groundY: int,
                    rolls: nat -> real, draws: nat -> SpawnDraws): (out: seq<Ball>)
    ensures |balls| <= |out| && out[..|balls|] == balls
    ensures 3 <= |out| <= IMax(|balls|, CurrentParams(scoreSec, scale).targetBalls)
    ensures |balls| >= CurrentParams(scoreSec, scale).targetBalls ==> out == balls
  {
    var p := CurrentParams(scoreSec, scale);
    RefillBounds(|balls|, p.targetBalls, p.fillProb, rolls);
    var out := Refilled(balls, Spawner(p, scale, w, groundY), p.targetBalls, p.fillProb, rolls, draws);
    assert out[..|balls|] == balls;
    out
  }

  /** Every ball `ensureBallCount` adds is a fresh spawn, the j-th one made
      from the j-th draws. */
  lemma ToppedUpSpawns(balls: seq<Ball>, scoreSec: int, scale: real, w: int, groundY: int,
                       rolls: nat -> real, draws: nat -> SpawnDraws, j: nat)
    requires |balls| <= j < |ToppedUp(balls, scoreSec, scale, w, groundY, rolls, draws)|
    ensures ToppedUp(balls, scoreSec, scale, w, groundY, rolls, draws)[j] ==
            NewBall(CurrentParams(scoreSec, scale), scale, w, groundY, draws(j - |balls|))
  {
    var p := CurrentParams(scoreSec, scale);
    SpawnedAt(Spawner(p, scale, w, groundY), draws, Refill(|balls|, p.targetBalls, p.fillProb, rolls), j - |balls|);
  }
}
