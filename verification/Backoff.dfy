/** Exponential reconnect backoff with full jitter (board_connection.py), in real
    arithmetic. */
module Backoff {
  import opened Basics

  /** The parameters the constructor accepts. */
  datatype Plan = Plan(base: real, factor: real, cap: real) {
    predicate Accepted() { base > 0.0 && factor > 1.0 && cap >= base }
  }

  function Power(f: real, k: nat): real { if k == 0 then 1.0 else Times(f, Power(f, k - 1)) }

  /** The ceiling after `k` delays since the last reset, as the code steps it. */
  function Ceiling(p: Plan, k: nat): real {
    if k == 0 then p.base else Min(p.cap, Times(Ceiling(p, k - 1), p.factor))
  }

  /** The closed form: min(cap, base * factor^k). */
  lemma {:induction false} CeilingClosedForm(p: Plan, k: nat)
    requires p.Accepted()
    ensures Ceiling(p, k) == Min(p.cap, Times(p.base, Power(p.factor, k)))
    ensures 0.0 < Ceiling(p, k) <= p.cap
  {
    hide Times;
    TimesUnit(p.base);
    if k > 0 {
      CeilingClosedForm(p, k - 1);
      var grown := Times(p.base, Power(p.factor, k - 1));
      TimesRegroups(p.base, p.factor, Power(p.factor, k - 1));
      TimesGrows(Ceiling(p, k - 1), p.factor);
      if grown >= p.cap { TimesKeepsOrder(p.cap, grown, p.factor); }
    }
  }

  lemma {:induction false} PowerGrows(f: real, j: nat, k: nat)
    requires f > 1.0 && j <= k
    ensures 1.0 <= Power(f, j) <= Power(f, k)
    decreases k
  {
    hide Times;
    TimesUnit(f);
    if j < k {
      PowerGrows(f, j, k - 1);
      TimesKeepsOrder(1.0, f, Power(f, k - 1));
      TimesUnit(Power(f, k - 1));
    } else if j > 0 {
      PowerGrows(f, j - 1, j - 1);
      TimesKeepsOrder(1.0, f, Power(f, j - 1));
      TimesUnit(Power(f, j - 1));
    }
  }

  /** Each factor adds at least `factor - 1`. */
  lemma {:induction false} PowerOutgrowsLine(f: real, k: nat)
    requires f > 1.0
    ensures Power(f, k) >= 1.0 + Times(k as real, f - 1.0)
  {
    if k == 0 {
      TimesUnit(f - 1.0);
    } else {
      PowerOutgrowsLine(f, k - 1);
      PowerGrows(f, k - 1, k - 1);
      OneMoreFactor(f, Power(f, k - 1), (k - 1) as real);
    }
  }

  lemma OneMoreFactor(f: real, w: real, n: real)
    requires f > 1.0 && w >= 1.0 && w >= 1.0 + Times(n, f - 1.0)
    ensures Times(f, w) >= 1.0 + Times(n + 1.0, f - 1.0)
  {
    var d := f - 1.0;
    assert f * w == w + d * w;
    assert d * (w - 1.0) >= 0.0;
    assert (n + 1.0) * d == n * d + d;
  }

  /** The cap is reached after finitely many delays, and kept. */
  lemma CapIsReached(p: Plan) returns (n: nat)
    requires p.Accepted()
    ensures forall k: nat :: k >= n ==> Ceiling(p, k) == p.cap
  {
    hide Ceiling;
    var d, q := p.factor - 1.0, p.cap / p.base;
    Quotient(p.cap, p.base);
    Quotient(q, d);
    n := (q / d).Floor + 1;
    forall k: nat | k >= n ensures Ceiling(p, k) == p.cap { CapReachedAt(p, k, q, q / d); }
  }

  lemma Quotient(x: real, y: real)
    requires x > 0.0 && y > 0.0
    ensures Times(x / y, y) == x && x / y > 0.0
  {
  }

  lemma CapReachedAt(p: Plan, k: nat, q: real, r: real)
    requires p.Accepted() && Times(q, p.base) == p.cap && Times(r, p.factor - 1.0) == q && r <= k as real
    ensures Ceiling(p, k) == p.cap
  {
    hide Times, Power, Ceiling;
    CeilingClosedForm(p, k);
    PowerOutgrowsLine(p.factor, k);
    TimesKeepsOrder(r, k as real, p.factor - 1.0);
    TimesKeepsOrder(q, Power(p.factor, k), p.base);
    TimesCommutes(p.base, Power(p.factor, k));
  }

  lemma TimesCommutes(x: real, y: real)
    ensures Times(x, y) == Times(y, x)
  {
  }

  /** Ceilings never fall between resets. */
  lemma CeilingGrows(p: Plan, j: nat, k: nat)
    requires p.Accepted() && j <= k
    ensures Ceiling(p, j) <= Ceiling(p, k)
  {
    hide Times, Power, Ceiling;
    CeilingClosedForm(p, j);
    CeilingClosedForm(p, k);
    PowerGrows(p.factor, j, k);
    TimesKeepsOrder(Power(p.factor, j), Power(p.factor, k), p.base);
  }

  // ------------------------------------------------------ the code in place

  class ReconnectBackoff {
    const plan: Plan
    var currentCeiling: real
    /** Delays drawn since the last reset. */
    ghost var drawn: nat

    ghost predicate Valid()
      reads this
    {
      plan.Accepted() && currentCeiling == Ceiling(plan, drawn)
    }

    constructor (p: Plan)
      requires p.base > 0.0 && p.factor > 1.0 && p.cap >= p.base
      ensures Valid() && plan == p && drawn == 0 && currentCeiling == p.base
    {
      plan := p;
      currentCeiling := p.base;
      drawn := 0;
    }

    /** Nothing on a fraction outside [0, 1]: the code raises and keeps its ceiling. */
    method NextDelay(fraction: real) returns (delay: Option<real>)
      requires Valid()
      modifies this
      ensures Valid()
      ensures delay.Some? <==> 0.0 <= fraction <= 1.0
      ensures drawn == old(drawn) + if delay.Some? then 1 else 0
      ensures delay.Some? ==>
                var ceiling := Min(plan.cap, Times(plan.base, Power(plan.factor, old(drawn))));
                delay.value == Times(ceiling, fraction) && 0.0 <= delay.value <= ceiling <= plan.cap
    {
      hide Times, Power;
      CeilingClosedForm(plan, drawn);
      if fraction < 0.0 || fraction > 1.0 { return None; }
      TimesKeepsOrder(0.0, fraction, currentCeiling);
      TimesKeepsOrder(fraction, 1.0, currentCeiling);
      TimesUnit(currentCeiling);
      delay := Some(Times(currentCeiling, fraction));
      currentCeiling := Min(plan.cap, Times(currentCeiling, plan.factor));
      drawn := drawn + 1;
    }

    method Reset()
      requires Valid()
      modifies this
      ensures Valid() && drawn == 0 && currentCeiling == plan.base
    {
      currentCeiling := plan.base;
      drawn := 0;
    }
  }
}
