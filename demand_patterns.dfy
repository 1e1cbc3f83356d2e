/**
 * Demand generators: each maps a period index to the consumer demand the
 * retailer faces in that period. The generators keep no state, so a
 * generator is a function of the period index; the noisy generator's
 * random draw is passed in.
 */
module DemandPatterns {
  import opened Builtins

  /** Demand jumps from `initial` to `final` at `stepPeriod` (inclusive). */
  function StepDemand(initial: int, final: int, stepPeriod: int, t: int): (d: int)
    ensures d == initial || d == final
    ensures t >= stepPeriod ==> d == final
    ensures t < stepPeriod ==> d == initial
  {
    if t >= stepPeriod then final else initial
  }

  /** `step_demand(initial, final, step_period)`: the generator as a function of the period. */
  function StepDemandFn(initial: int, final: int, stepPeriod: int): (f: int -> int)
    ensures forall t :: t >= stepPeriod ==> f(t) == final
    ensures forall t :: t < stepPeriod ==> f(t) == initial
  {
    t => StepDemand(initial, final, stepPeriod, t)
  }

  /** Base demand plus a draw in [-noise, noise], floored at zero. */
  function NoisyDemand(base: int, draw: int): (d: int)
    ensures d >= 0
    ensures d >= base + draw
    ensures d == 0 || d == base + draw
  {
    Max(0, base + draw)
  }

  /**
   * `noisy_demand(base, noise, seed)` over a stream of draws: `draws(t)` is
   * the draw the seeded random source yields on the generator's (t+1)-th
   * call, which is period t of the first run that uses it.
   */
  function NoisyDemandFn(base: int, draws: int -> int): (f: int -> int)
    ensures forall t {:trigger f(t)} :: f(t) >= 0 && f(t) >= base + draws(t)
    ensures forall t {:trigger f(t)} :: f(t) == 0 || f(t) == base + draws(t)
  {
    var g := t => NoisyDemand(base, draws(t));
    assert forall t {:trigger g(t)} :: g(t) == NoisyDemand(base, draws(t));
    g
  }

  /** `shockMagnitude` during [shockPeriod, shockPeriod + shockDuration), else `base`. */
  function ShockDemand(base: int, shockPeriod: int, shockDuration: int, shockMagnitude: int, t: int): (d: int)
    ensures d == shockMagnitude || d == base
    ensures shockPeriod <= t < shockPeriod + shockDuration ==> d == shockMagnitude
    ensures !(shockPeriod <= t < shockPeriod + shockDuration) ==> d == base
  {
    if shockPeriod <= t < shockPeriod + shockDuration then shockMagnitude else base
  }

  /** `shock_demand(base, shock_period, shock_duration, shock_magnitude)` as a function of the period. */
  function ShockDemandFn(base: int, shockPeriod: int, shockDuration: int, shockMagnitude: int): (f: int -> int)
    ensures forall t :: shockPeriod <= t < shockPeriod + shockDuration ==> f(t) == shockMagnitude
    ensures forall t :: !(shockPeriod <= t < shockPeriod + shockDuration) ==> f(t) == base
  {
    t => ShockDemand(base, shockPeriod, shockDuration, shockMagnitude, t)
  }

  /** The demands a generator yields over periods 0 .. n-1. */
  function Series(f: int -> int, n: nat): (s: seq<int>)
    ensures |s| == n
    ensures forall t :: 0 <= t < n ==> s[t] == f(t)
  {
    seq(n, t => f(t))
  }

  function Clamp(x: int, lo: nat, hi: nat): (c: nat)
    requires lo <= hi
    ensures lo <= c <= hi
    ensures lo <= x <= hi ==> c == x
  {
    if x < lo then lo else if x > hi then hi else x
  }

  /**
   * Over a horizon of n periods, step demand is a run of `initial` followed
   * by a run of `final`, switching once at `stepPeriod` (clamped to the horizon).
   */
  lemma StepSeries(initial: int, final: int, stepPeriod: int, n: nat)
    ensures var k := Clamp(stepPeriod, 0, n);
      Series(StepDemandFn(initial, final, stepPeriod), n) == Fill(initial, k) + Fill(final, n - k)
  {
    var k := Clamp(stepPeriod, 0, n);
    var s := Series(StepDemandFn(initial, final, stepPeriod), n);
    var r := Fill(initial, k) + Fill(final, n - k);
    forall t | 0 <= t < n ensures s[t] == r[t] {
      if t < k { assert r[t] == initial; } else { assert r[t] == Fill(final, n - k)[t - k]; }
    }
  }

  /**
   * Over a horizon of n periods, shock demand is `base`, then the shock
   * window (clamped to the horizon), then `base` again.
   */
  lemma ShockSeries(base: int, shockPeriod: int, shockDuration: int, shockMagnitude: int, n: nat)
    ensures var a := Clamp(shockPeriod, 0, n);
      var b := Clamp(shockPeriod + shockDuration, a, n);
      Series(ShockDemandFn(base, shockPeriod, shockDuration, shockMagnitude), n)
        == Fill(base, a) + Fill(shockMagnitude, b - a) + Fill(base, n - b)
  {
    var a := Clamp(shockPeriod, 0, n);
    var b := Clamp(shockPeriod + shockDuration, a, n);
    var s := Series(ShockDemandFn(base, shockPeriod, shockDuration, shockMagnitude), n);
    var r := Fill(base, a) + Fill(shockMagnitude, b - a) + Fill(base, n - b);
    forall t | 0 <= t < n ensures s[t] == r[t] {
      if t < a {
        assert r[t] == base;
      } else if t < b {
        assert r[t] == Fill(shockMagnitude, b - a)[t - a];
      } else {
        assert r[t] == Fill(base, n - b)[t - b];
      }
    }
  }

  /** A shock with no positive duration never happens. */
  lemma NoShockWithoutDuration(base: int, shockPeriod: int, shockDuration: int, shockMagnitude: int, t: int)
    requires shockDuration <= 0
    ensures ShockDemand(base, shockPeriod, shockDuration, shockMagnitude, t) == base
  {
  }

  /** Noisy demand with a draw in [-noise, noise] lies in [max(0, base-noise), max(0, base+noise)]. */
  lemma NoisyDemandBounds(base: int, noise: int, draw: int)
    requires -noise <= draw <= noise
    ensures Max(0, base - noise) <= NoisyDemand(base, draw) <= Max(0, base + noise)
  {
  }
}
