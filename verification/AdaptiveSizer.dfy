/** The pool sizer (`core/db/pool/adaptive.py`): immediate growth under pressure,
    shrinking by one after five quiet checks in a row. */
module AdaptiveSizing {
  const COOLDOWN_CHECKS := 5
  const WAIT_PRESSURE_THRESHOLD_MS := 5.0

  datatype Sizer = Sizer(min: nat, max: nat, current: nat, idleStreak: nat)

  datatype Signal = Signal(currentWaiters: nat, recentWaitMs: real)

  function Max(a: int, b: int): int { if a > b then a else b }

  function Min(a: int, b: int): int { if a < b then a else b }

  /** The largest size ever reached; `max`, unless configured below `min`. */
  function Ceiling(s: Sizer): nat { Max(s.min, s.max) }

  predicate Pressure(g: Signal) { g.currentWaiters > 0 || g.recentWaitMs > WAIT_PRESSURE_THRESHOLD_MS }

  function Adjusted(s: Sizer, g: Signal): Sizer {
    if Pressure(g) then s.(idleStreak := 0, current := if s.current < s.max then s.current + 1 else s.current)
    else if s.idleStreak + 1 >= COOLDOWN_CHECKS && s.current > s.min then s.(current := s.current - 1, idleStreak := 0)
    else s.(idleStreak := s.idleStreak + 1)
  }

  function Initial(min: nat, max: nat): Sizer { Sizer(min, max, min, 0) }

  /** The state after a run of checks from `s`. */
  function Checks(s: Sizer, gs: seq<Signal>): Sizer {
    if gs == [] then s else Adjusted(Checks(s, gs[..|gs| - 1]), gs[|gs| - 1])
  }

  ghost predicate Steady(s: Sizer) {
    && s.min <= s.current <= Ceiling(s)
    && (s.current > s.min ==> s.idleStreak < COOLDOWN_CHECKS)
  }

  /** Whatever the signals, the size stays within its bounds, and above the minimum
      the quiet streak stays below the cooldown. */
  lemma {:induction false} SteadyAlways(min: nat, max: nat, gs: seq<Signal>)
    ensures Steady(Checks(Initial(min, max), gs))
    ensures Checks(Initial(min, max), gs).min == min && Checks(Initial(min, max), gs).max == max
  {
    if gs != [] {
      SteadyAlways(min, max, gs[..|gs| - 1]);
    }
  }

  /** Hysteresis. `n` quiet checks give back one connection for every five, counting
      the streak so far, down to the minimum. */
  lemma {:induction false} QuietChecks(s: Sizer, gs: seq<Signal>)
    requires Steady(s) && forall i :: 0 <= i < |gs| ==> gs[i].currentWaiters == 0 && gs[i].recentWaitMs <= 5.0
    ensures Checks(s, gs).current == Max(s.min, s.current - (s.idleStreak + |gs|) / COOLDOWN_CHECKS)
    ensures Checks(s, gs).current > s.min ==> Checks(s, gs).idleStreak == (s.idleStreak + |gs|) % COOLDOWN_CHECKS
    ensures Checks(s, gs).min == s.min
  {
    if gs != [] {
      QuietChecks(s, gs[..|gs| - 1]);
    }
  }

  /** `n` checks under pressure grow it by `n`, up to the maximum. */
  lemma {:induction false} PressuredChecks(s: Sizer, gs: seq<Signal>)
    requires s.current <= s.max && forall i :: 0 <= i < |gs| ==> gs[i].currentWaiters > 0 || gs[i].recentWaitMs > 5.0
    ensures Checks(s, gs).current == Min(s.max, s.current + |gs|)
    ensures Checks(s, gs).max == s.max && (gs != [] ==> Checks(s, gs).idleStreak == 0)
  {
    if gs != [] {
      PressuredChecks(s, gs[..|gs| - 1]);
    }
  }

  /** One check, written out. */
  lemma AdjustedExactly(s: Sizer, g: Signal)
    ensures
      var t := Adjusted(s, g);
      && t.min == s.min && t.max == s.max
      && (if g.currentWaiters > 0 || g.recentWaitMs > 5.0
          then t.idleStreak == 0 && t.current == if s.current < s.max then s.current + 1 else s.current
          else if s.idleStreak >= 4 && s.current > s.min then t.idleStreak == 0 && t.current == s.current - 1
          else t.idleStreak == s.idleStreak + 1 && t.current == s.current)
  {
  }

  class AdaptiveSizer {
    const min: nat
    const max: nat
    var current: nat
    var idleStreak: nat

    function State(): Sizer reads this { Sizer(min, max, current, idleStreak) }

    constructor (min: nat, max: nat)
      ensures State() == Initial(min, max)
    {
      this.min, this.max, current, idleStreak := min, max, min, 0;
    }

    method Adjust(currentWaiters: nat, recentWaitMs: real) returns (size: nat)
      modifies this
      ensures State() == Adjusted(old(State()), Signal(currentWaiters, recentWaitMs))
      ensures size == current
    {
      var underPressure := currentWaiters > 0 || recentWaitMs > WAIT_PRESSURE_THRESHOLD_MS;
      if underPressure {
        idleStreak := 0;
        if current < max {
          current := current + 1;
        }
      } else {
        idleStreak := idleStreak + 1;
        if idleStreak >= COOLDOWN_CHECKS && current > min {
          current := current - 1;
          idleStreak := 0;
        }
      }
      return current;
    }
  }
}
