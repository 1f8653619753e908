/**
 * The two flicker affectors: callables that, once per update, grow or shrink a point
 * light's sprite scale and reverse direction on a timer (LightFlickering) or on a size
 * budget as well (RandomizedFlickering). The clock is the caller's millisecond reading
 * `now`; the random factor drawn in [0.5, 1] is passed in per tick.
 */
module Flickering {
  import opened Geometry
  import opened Lights

  /** The scale change of one tick: strength * delta / period. */
  function Shift(strength: real, delta: real, period: real): real
    requires period != 0.0
  {
    strength * delta / period
  }

  /** Both scale axes moved by the same amount. */
  function Grow(v: Vec, d: real): Vec {
    Vec(v.x + d, v.y + d)
  }

  function Signed(growing: bool, s: real): real {
    if growing then s else -s
  }

  /** The timer has run longer than the period (milliseconds compared with the float period). */
  predicate Expired(timerStart: int, now: int, period: real) {
    (now - timerStart) as real > period
  }

  /** One update of the caller: the frame time and the clock and random readings it sees. */
  datatype Tick = Tick(delta: real, now: int, random: real)

  /** What a LightFlickering tick reads and writes: its direction, its timer and the light's scale. */
  datatype FlickerState = FlickerState(growing: bool, timerStart: int, scale: Vec)

  /** LightFlickering::operator() (Light.cpp:670-687). */
  function FlickerStep(st: FlickerState, period: real, strength: real, t: Tick): (r: FlickerState)
    requires period != 0.0
    ensures r.growing != st.growing <==> Expired(st.timerStart, t.now, period)
    ensures r.growing != st.growing ==> r.timerStart == t.now
    ensures r.growing == st.growing ==> r.timerStart == st.timerStart
  {
    var scale := Grow(st.scale, Signed(st.growing, Shift(strength, t.delta, period)));
    if Expired(st.timerStart, t.now, period) then FlickerState(!st.growing, t.now, scale)
    else FlickerState(st.growing, st.timerStart, scale)
  }

  function FlickerRun(st: FlickerState, period: real, strength: real, ticks: seq<Tick>): FlickerState
    requires period != 0.0
    decreases |ticks|
  {
    if |ticks| == 0 then st else FlickerRun(FlickerStep(st, period, strength, ticks[0]), period, strength, ticks[1..])
  }

  /** Flickering changes both axes alike, so the difference of the two scale factors never changes. */
  lemma {:induction false} FlickerKeepsAspect(st: FlickerState, period: real, strength: real, ticks: seq<Tick>)
    requires period != 0.0
    ensures var r := FlickerRun(st, period, strength, ticks);
      r.scale.x - r.scale.y == st.scale.x - st.scale.y
    decreases |ticks|
  {
    if |ticks| > 0 {
      FlickerKeepsAspect(FlickerStep(st, period, strength, ticks[0]), period, strength, ticks[1..]);
    }
  }

  /**
   * Between two reversals the scale moves linearly: n ticks of the same frame time, none of
   * which finds the timer expired, move each axis by n shifts in the current direction.
   */
  lemma {:induction false} FlickerPhaseLinear(st: FlickerState, period: real, strength: real, ticks: seq<Tick>, delta: real)
    requires period != 0.0
    requires forall i :: 0 <= i < |ticks| ==> ticks[i].delta == delta && !Expired(st.timerStart, ticks[i].now, period)
    ensures var r := FlickerRun(st, period, strength, ticks);
      var d := |ticks| as real * Signed(st.growing, Shift(strength, delta, period));
      && r.growing == st.growing && r.timerStart == st.timerStart
      && r.scale == Grow(st.scale, d)
    decreases |ticks|
  {
    if |ticks| > 0 {
      var next := FlickerStep(st, period, strength, ticks[0]);
      FlickerPhaseLinear(next, period, strength, ticks[1..], delta);
    }
  }

  /** LightFlickering (Light.h:244-256): constant period and strength, a direction and a timer. */
  class LightFlickering {
    var growing: bool
    const period: real
    const strength: real
    var timerStart: int

    /** Light.cpp:667: starts shrinking; the timer starts at construction. */
    constructor (period: real, strength: real, now: int)
      requires period != 0.0
      ensures !growing && this.period == period && this.strength == strength && timerStart == now
    {
      growing := false;
      this.period := period;
      this.strength := strength;
      timerStart := now;
    }

    /** One update applied to `light`. */
    method Apply(delta: real, light: PointLight, now: int)
      requires period != 0.0
      modifies this, light
      ensures FlickerState(growing, timerStart, light.scale)
        == FlickerStep(old(FlickerState(growing, timerStart, light.scale)), period, strength, Tick(delta, now, 0.0))
    {
      var scale := strength * delta / period;
      if growing {
        light.scale := Vec(light.scale.x + scale, light.scale.y + scale);
      } else {
        light.scale := Vec(light.scale.x - scale, light.scale.y - scale);
      }
      if (now - timerStart) as real > period {
        timerStart := now;
        growing := !growing;
      }
    }
  }

  /** The random factor of a new period lies in [0.5, 1]. */
  predicate RandomFactor(r: real) {
    0.5 <= r <= 1.0
  }

  /**
   * What a RandomizedFlickering tick reads and writes: its direction, its current period,
   * its size memory (the net scale offset it has applied), its timer and the light's scale.
   */
  datatype RandomState = RandomState(growing: bool, period: real, memo: real, timerStart: int, scale: Vec)

  /** RandomizedFlickering::operator() (Light.cpp:697-724). */
  function RandomizedStep(st: RandomState, basePeriod: real, strength: real, t: Tick): (r: RandomState)
    requires st.period != 0.0
    ensures r.growing != st.growing ==> r.period == t.random * basePeriod && r.timerStart == t.now
    ensures r.growing == st.growing ==> r.period == st.period && r.timerStart == st.timerStart
  {
    var s := Shift(strength, t.delta, st.period);
    var expired := Expired(st.timerStart, t.now, st.period);
    if st.growing then
      var memo := st.memo + s;
      var scale := Grow(st.scale, s);
      if memo >= 0.0 || expired then RandomState(false, t.random * basePeriod, memo, t.now, scale)
      else RandomState(true, st.period, memo, st.timerStart, scale)
    else
      var memo := st.memo - s;
      var scale := Grow(st.scale, -s);
      if memo <= -strength * st.period || expired then RandomState(true, t.random * basePeriod, memo, t.now, scale)
      else RandomState(false, st.period, memo, st.timerStart, scale)
  }

  /** The periods a RandomizedFlickering can have: a random factor in [0.5, 1] times the base period. */
  predicate PeriodInRange(period: real, basePeriod: real) {
    0.0 < basePeriod && 0.5 * basePeriod <= period <= basePeriod
  }

  /** The random factors of a run of ticks are in range. */
  predicate Factors(ticks: seq<Tick>) {
    forall i :: 0 <= i < |ticks| ==> RandomFactor(ticks[i].random)
  }

  /** A random factor in range times a positive base period is a period in range. */
  lemma FactorScales(r: real, basePeriod: real)
    requires RandomFactor(r) && 0.0 < basePeriod
    ensures PeriodInRange(r * basePeriod, basePeriod)
  {
    assert r * basePeriod - 0.5 * basePeriod == (r - 0.5) * basePeriod;
    assert basePeriod - r * basePeriod == (1.0 - r) * basePeriod;
  }

  /** A tick keeps the period in range. */
  lemma StepKeepsPeriod(st: RandomState, basePeriod: real, strength: real, t: Tick)
    requires PeriodInRange(st.period, basePeriod) && RandomFactor(t.random)
    ensures PeriodInRange(RandomizedStep(st, basePeriod, strength, t).period, basePeriod)
  {
    var r := RandomizedStep(st, basePeriod, strength, t);
    PeriodChoice(st.period, r.period, t.random, basePeriod, r.growing != st.growing);
  }

  /** A period that is either kept or redrawn stays in range. */
  lemma PeriodChoice(period: real, period': real, r: real, basePeriod: real, redrawn: bool)
    requires PeriodInRange(period, basePeriod) && RandomFactor(r)
    requires redrawn ==> period' == r * basePeriod
    requires !redrawn ==> period' == period
    ensures PeriodInRange(period', basePeriod)
  {
    if redrawn {
      FactorScales(r, basePeriod);
    }
  }

  /** The ticks after the first keep their factors in range. */
  lemma FactorsTail(ticks: seq<Tick>)
    requires |ticks| > 0 && Factors(ticks)
    ensures Factors(ticks[1..])
  {
    forall i | 0 <= i < |ticks| - 1
      ensures RandomFactor(ticks[1..][i].random)
    {
      assert ticks[1..][i] == ticks[i + 1];
    }
  }

  function RandomizedRun(st: RandomState, basePeriod: real, strength: real, ticks: seq<Tick>): RandomState
    requires PeriodInRange(st.period, basePeriod) && Factors(ticks)
    decreases |ticks|
  {
    if |ticks| == 0 then st
    else
      var next := RandomizedStep(st, basePeriod, strength, ticks[0]);
      StepKeepsPeriod(st, basePeriod, strength, ticks[0]);
      FactorsTail(ticks);
      RandomizedRun(next, basePeriod, strength, ticks[1..])
  }

  /** Every period the run picks stays a factor in [0.5, 1] of the base period. */
  lemma {:induction false} RandomizedPeriodStays(st: RandomState, basePeriod: real, strength: real, ticks: seq<Tick>)
    requires PeriodInRange(st.period, basePeriod) && Factors(ticks)
    ensures PeriodInRange(RandomizedRun(st, basePeriod, strength, ticks).period, basePeriod)
    decreases |ticks|
  {
    if |ticks| > 0 {
      var next := RandomizedStep(st, basePeriod, strength, ticks[0]);
      StepKeepsPeriod(st, basePeriod, strength, ticks[0]);
      FactorsTail(ticks);
      RandomizedPeriodStays(next, basePeriod, strength, ticks[1..]);
    }
  }

  /** The size memory follows the scale: over any run, each axis moves by exactly the change of the memory. */
  lemma {:induction false} MemoTracksScale(st: RandomState, basePeriod: real, strength: real, ticks: seq<Tick>)
    requires PeriodInRange(st.period, basePeriod) && Factors(ticks)
    ensures var r := RandomizedRun(st, basePeriod, strength, ticks);
      && r.scale.x - st.scale.x == r.memo - st.memo
      && r.scale.y - st.scale.y == r.memo - st.memo
    decreases |ticks|
  {
    if |ticks| > 0 {
      var next := RandomizedStep(st, basePeriod, strength, ticks[0]);
      StepKeepsPeriod(st, basePeriod, strength, ticks[0]);
      FactorsTail(ticks);
      MemoTracksScale(next, basePeriod, strength, ticks[1..]);
    }
  }

  /**
   * The size budget: a growing flicker is below its original size, and it is never more
   * than `maxStep` (the largest shift of a tick) above it.
   */
  predicate WithinBudget(st: RandomState, maxStep: real) {
    st.memo <= maxStep && (st.growing ==> st.memo < 0.0)
  }

  /**
   * The ticks the size budget is proved for: the tick shifts by at most `maxStep`, and the
   * timer does not end a shrink phase that leaves the light at or above its original size.
   */
  predicate BudgetTick(st: RandomState, strength: real, t: Tick, maxStep: real)
    requires st.period != 0.0
  {
    && 0.0 <= Shift(strength, t.delta, st.period) <= maxStep
    && (!st.growing && Expired(st.timerStart, t.now, st.period) ==> st.memo - Shift(strength, t.delta, st.period) < 0.0)
  }

  /**
   * One tick keeps the size budget, for a positive strength and a tick that grows or shrinks
   * by at most `maxStep`, unless the timer ends a shrink phase while the light is still at
   * or above its original size (then the next growth starts from there).
   */
  lemma RandomizedKeepsBudget(st: RandomState, basePeriod: real, strength: real, t: Tick, maxStep: real)
    requires PeriodInRange(st.period, basePeriod) && RandomFactor(t.random) && 0.0 < strength
    requires WithinBudget(st, maxStep) && BudgetTick(st, strength, t, maxStep)
    ensures WithinBudget(RandomizedStep(st, basePeriod, strength, t), maxStep)
  {
    var s := Shift(strength, t.delta, st.period);
    var r := RandomizedStep(st, basePeriod, strength, t);
    if st.growing {
      assert r.memo == st.memo + s;
    } else {
      assert r.memo == st.memo - s;
      if r.growing && !Expired(st.timerStart, t.now, st.period) {
        assert r.memo <= -strength * st.period;
        PositiveProduct(strength, st.period);
      }
    }
  }

  /** Every tick of a run, taken in the state the run has reached, is a budget tick. */
  predicate BudgetRun(st: RandomState, basePeriod: real, strength: real, ticks: seq<Tick>, maxStep: real)
    requires PeriodInRange(st.period, basePeriod) && Factors(ticks)
    decreases |ticks|
  {
    if |ticks| == 0 then true
    else
      StepKeepsPeriod(st, basePeriod, strength, ticks[0]);
      FactorsTail(ticks);
      && BudgetTick(st, strength, ticks[0], maxStep)
      && BudgetRun(RandomizedStep(st, basePeriod, strength, ticks[0]), basePeriod, strength, ticks[1..], maxStep)
  }

  /** A new flicker (shrinking, empty size memory) starts within any non-negative budget. */
  lemma StartsWithinBudget(period: real, now: int, scale: Vec, maxStep: real)
    requires 0.0 <= maxStep
    ensures WithinBudget(RandomState(false, period, 0.0, now, scale), maxStep)
  {
  }

  /** The size budget holds after any run of budget ticks. */
  lemma {:induction false} RandomizedRunKeepsBudget(st: RandomState, basePeriod: real, strength: real, ticks: seq<Tick>, maxStep: real)
    requires PeriodInRange(st.period, basePeriod) && Factors(ticks) && 0.0 < strength
    requires WithinBudget(st, maxStep) && BudgetRun(st, basePeriod, strength, ticks, maxStep)
    ensures WithinBudget(RandomizedRun(st, basePeriod, strength, ticks), maxStep)
    decreases |ticks|
  {
    if |ticks| > 0 {
      var next := RandomizedStep(st, basePeriod, strength, ticks[0]);
      StepKeepsPeriod(st, basePeriod, strength, ticks[0]);
      FactorsTail(ticks);
      RandomizedKeepsBudget(st, basePeriod, strength, ticks[0], maxStep);
      RandomizedRunKeepsBudget(next, basePeriod, strength, ticks[1..], maxStep);
    }
  }

  lemma PositiveProduct(a: real, b: real)
    requires 0.0 < a && 0.0 < b
    ensures -a * b < 0.0
  {
  }

  /**
   * RandomizedFlickering (Light.h:257-271). The current period is redrawn on each reversal;
   * the base period and the strength are constant.
   */
  class RandomizedFlickering {
    var growing: bool
    var period: real
    const basePeriod: real
    const strength: real
    var timerStart: int
    var memo: real

    /** Light.cpp:690-694: starts shrinking with an empty size memory and a random period. */
    constructor (basePeriod: real, strength: real, now: int, random: real)
      requires 0.0 < basePeriod && RandomFactor(random)
      ensures !growing && period == random * basePeriod && memo == 0.0 && timerStart == now
      ensures this.basePeriod == basePeriod && this.strength == strength
      ensures PeriodInRange(period, basePeriod)
    {
      FactorScales(random, basePeriod);
      growing := false;
      period := random * basePeriod;
      this.basePeriod := basePeriod;
      this.strength := strength;
      timerStart := now;
      memo := 0.0;
    }

    function State(light: PointLight): RandomState
      reads this, light
    {
      RandomState(growing, period, memo, timerStart, light.scale)
    }

    /** One update applied to `light`. */
    method Apply(delta: real, light: PointLight, now: int, random: real)
      requires PeriodInRange(period, basePeriod) && RandomFactor(random)
      modifies this, light
      ensures State(light) == RandomizedStep(old(State(light)), basePeriod, strength, Tick(delta, now, random))
      ensures PeriodInRange(period, basePeriod)
    {
      FactorScales(random, basePeriod);
      var scale := strength * delta / period;
      if growing {
        light.scale := Vec(light.scale.x + scale, light.scale.y + scale);
        memo := memo + scale;
        if memo >= 0.0 || (now - timerStart) as real > period {
          timerStart := now;
          growing := false;
          period := random * basePeriod;
        }
      } else {
        light.scale := Vec(light.scale.x - scale, light.scale.y - scale);
        memo := memo - scale;
        if memo <= -strength * period || (now - timerStart) as real > period {
          timerStart := now;
          growing := true;
          period := random * basePeriod;
        }
      }
    }
  }
}
