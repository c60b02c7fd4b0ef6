/** The difficulty controller (`difficultyT`, `currentParams`): a pure function
    of the whole seconds survived and the display scale. */
module Difficulty {
  import opened Num

  /** The ramp: flat for the first 5 seconds, a smoothstep over the next 20,
      then 1. */
  function DifficultyT(scoreSec: int): (t: real)
    ensures 0.0 <= t <= 1.0
    ensures scoreSec <= 5 ==> t == 0.0
    ensures scoreSec >= 25 ==> t == 1.0
  {
    Smoothstep01(((scoreSec - 5) as real) / 20.0)
  }

  lemma DifficultyTMonotone(s1: int, s2: int)
    requires s1 <= s2
    ensures DifficultyT(s1) <= DifficultyT(s2)
  {
    assert ((s1 - 5) as real) / 20.0 <= ((s2 - 5) as real) / 20.0;
    SmoothstepMonotone(((s1 - 5) as real) / 20.0, ((s2 - 5) as real) / 20.0);
  }

  /** The stepped bonus: +1 every 18 seconds past second 25, at most +6. */
  function Extra(scoreSec: int): (e: int)
    ensures 0 <= e <= 6
    ensures scoreSec < 43 ==> e == 0
    ensures scoreSec >= 133 ==> e == 6
  {
    IMin(6, IMax(0, scoreSec - 25) / 18)
  }

  lemma ExtraMonotone(s1: int, s2: int)
    requires s1 <= s2
    ensures Extra(s1) <= Extra(s2)
  {
    var a, b := IMax(0, s1 - 25), IMax(0, s2 - 25);
    assert 0 <= a <= b;
    DivMonotone(a, b);
  }

  lemma DivMonotone(a: int, b: int)
    requires 0 <= a <= b
    ensures a / 18 <= b / 18
  {
  }

  /** The values `currentParams` returns. */
  datatype Params = Params(
    t: real,
    targetBalls: int,
    windA: real,
    baseSpeed: real,
    fillProb: real,
    gAdd: real,
    extra: int)

  function TargetBalls(t: real, extra: int): int
  {
    IClamp(Round(Lerp(3.0, 8.0, t)) + extra, 3, 14)
  }

  /** A ramped quantity: `lerp(lo, hi, t)` plus a capped bonus per extra step. */
  function Ramp(lo: real, hi: real, t: real, cap: real, step: real, extra: int): real
  {
    Lerp(lo, hi, t) + Min(cap, extra as real * step)
  }

  lemma RampMonotone(lo: real, hi: real, cap: real, step: real, t1: real, t2: real, e1: int, e2: int)
    requires lo <= hi && 0.0 <= step && t1 <= t2 && e1 <= e2
    ensures Ramp(lo, hi, t1, cap, step, e1) <= Ramp(lo, hi, t2, cap, step, e2)
  {
    LerpMonotone(lo, hi, t1, t2);
    var d := (e2 - e1) as real;
    assert d == e2 as real - e1 as real;
    MulNonneg(d, step);
    assert e2 as real * step - e1 as real * step == d * step;
    assert e1 as real * step <= e2 as real * step;
    assert Min(cap, e1 as real * step) <= Min(cap, e2 as real * step);
  }

  lemma RampPositive(lo: real, hi: real, t: real, cap: real, step: real, extra: int)
    requires 0.0 <= lo <= hi && 0.0 <= t <= 1.0 && 0.0 <= cap && 0.0 <= step && 0 <= extra
    ensures lo <= Ramp(lo, hi, t, cap, step, extra) <= hi + cap
  {
    MulNonneg(extra as real, step);
  }

  /** `currentParams(scoreSec)` with `scaleRef.current` passed in as `scale`. */
  function CurrentParams(scoreSec: int, scale: real): (p: Params)
    ensures p.t == DifficultyT(scoreSec) && p.extra == Extra(scoreSec)
    ensures 0 <= p.extra <= 6
    ensures 3 <= p.targetBalls <= 14
    ensures 0.02 <= p.fillProb <= 0.13
    ensures scale >= 0.0 ==> p.windA > 0.0 && p.baseSpeed > 0.0 && p.gAdd >= 0.0
  {
    var t := DifficultyT(scoreSec);
    var extra := Extra(scoreSec);
    ParamsSigns(t, extra, scale);
    ParamsAt(t, extra, scale)
  }

  /** The outputs for ramp value t, step bonus extra and scale. */
  function ParamsAt(t: real, extra: int, scale: real): Params
  {
    Params(t, TargetBalls(t, extra),
           Scaled(Ramp(18.0, 130.0, t, 60.0, 10.0, extra), scale),
           Scaled(Ramp(240.0, 420.0, t, 140.0, 18.0, extra), scale),
           Ramp(0.02, 0.09, t, 0.04, 0.004, extra),
           Scaled(Ramp(0.0, 700.0, t, 500.0, 80.0, extra), scale),
           extra)
  }

  lemma ParamsSigns(t: real, extra: int, scale: real)
    requires 0.0 <= t <= 1.0 && 0 <= extra
    ensures 0.02 <= Ramp(0.02, 0.09, t, 0.04, 0.004, extra) <= 0.13
    ensures scale >= 0.0 ==>
      Scaled(Ramp(18.0, 130.0, t, 60.0, 10.0, extra), scale) > 0.0 &&
      Scaled(Ramp(240.0, 420.0, t, 140.0, 18.0, extra), scale) > 0.0 &&
      Scaled(Ramp(0.0, 700.0, t, 500.0, 80.0, extra), scale) >= 0.0
  {
    RampPositive(18.0, 130.0, t, 60.0, 10.0, extra);
    RampPositive(240.0, 420.0, t, 140.0, 18.0, extra);
    RampPositive(0.0, 700.0, t, 500.0, 80.0, extra);
    RampPositive(0.02, 0.09, t, 0.04, 0.004, extra);
    if scale >= 0.0 {
      ScaledNonneg(Ramp(18.0, 130.0, t, 60.0, 10.0, extra), scale);
      ScaledNonneg(Ramp(240.0, 420.0, t, 140.0, 18.0, extra), scale);
      ScaledNonneg(Ramp(0.0, 700.0, t, 500.0, 80.0, extra), scale);
    }
  }

  lemma ScaledRampMonotone(lo: real, hi: real, cap: real, step: real,
                           t1: real, t2: real, e1: int, e2: int, scale: real)
    requires lo <= hi && 0.0 <= step && t1 <= t2 && e1 <= e2 && 0.0 <= scale
    ensures Scaled(Ramp(lo, hi, t1, cap, step, e1), scale) <= Scaled(Ramp(lo, hi, t2, cap, step, e2), scale)
  {
    RampMonotone(lo, hi, cap, step, t1, t2, e1, e2);
    ScaledMonotone(Ramp(lo, hi, t1, cap, step, e1), Ramp(lo, hi, t2, cap, step, e2), scale);
  }

  lemma TargetBallsMonotone(t1: real, t2: real, e1: int, e2: int)
    requires t1 <= t2 && e1 <= e2
    ensures TargetBalls(t1, e1) <= TargetBalls(t2, e2)
  {
    LerpMonotone(3.0, 8.0, t1, t2);
    RoundMonotone(Lerp(3.0, 8.0, t1), Lerp(3.0, 8.0, t2));
  }

  /** Difficulty never eases off: a later second never has fewer target balls
      nor less wind, spawn speed, fill probability or extra gravity. */
  lemma ParamsMonotone(s1: int, s2: int, scale: real)
    requires s1 <= s2
    requires scale >= 0.0
    ensures CurrentParams(s1, scale).targetBalls <= CurrentParams(s2, scale).targetBalls
    ensures CurrentParams(s1, scale).windA <= CurrentParams(s2, scale).windA
    ensures CurrentParams(s1, scale).baseSpeed <= CurrentParams(s2, scale).baseSpeed
    ensures CurrentParams(s1, scale).fillProb <= CurrentParams(s2, scale).fillProb
    ensures CurrentParams(s1, scale).gAdd <= CurrentParams(s2, scale).gAdd
    ensures CurrentParams(s1, scale).extra <= CurrentParams(s2, scale).extra
  {
    DifficultyTMonotone(s1, s2);
    ExtraMonotone(s1, s2);
    ParamsAtMonotone(DifficultyT(s1), DifficultyT(s2), Extra(s1), Extra(s2), scale);
  }

  lemma ParamsAtMonotone(t1: real, t2: real, e1: int, e2: int, scale: real)
    requires t1 <= t2 && e1 <= e2 && 0.0 <= scale
    ensures ParamsAt(t1, e1, scale).targetBalls <= ParamsAt(t2, e2, scale).targetBalls
    ensures ParamsAt(t1, e1, scale).windA <= ParamsAt(t2, e2, scale).windA
    ensures ParamsAt(t1, e1, scale).baseSpeed <= ParamsAt(t2, e2, scale).baseSpeed
    ensures ParamsAt(t1, e1, scale).fillProb <= ParamsAt(t2, e2, scale).fillProb
    ensures ParamsAt(t1, e1, scale).gAdd <= ParamsAt(t2, e2, scale).gAdd
  {
    TargetBallsMonotone(t1, t2, e1, e2);
    ScaledRampMonotone(18.0, 130.0, 60.0, 10.0, t1, t2, e1, e2, scale);
    ScaledRampMonotone(240.0, 420.0, 140.0, 18.0, t1, t2, e1, e2, scale);
    ScaledRampMonotone(0.0, 700.0, 500.0, 80.0, t1, t2, e1, e2, scale);
    RampMonotone(0.02, 0.09, 0.04, 0.004, t1, t2, e1, e2);
  }
}
