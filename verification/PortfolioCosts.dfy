/** The transaction-cost overlay of the portfolio kernels: drags taken off the
    returns derived from a gross equity curve, which is then compounded again. */
module PortfolioCosts {
  import opened Wrappers
  import opened Rebalance
  import C = Costs

  // ----- The overlay -------------------------------------------------------

  /** The return of bar i that an equity curve implies; none off a zero. */
  function Derived(e: seq<real>, i: nat): Num
    requires 0 < i < |e|
  {
    if e[i - 1] == 0.0 then None else Some((e[i] - e[i - 1]) / e[i - 1])
  }

  /** The curve compounded again from the derived returns less the drags; step
      i-1 to i bears drag[i-1]. */
  function Recompounded(e: seq<real>, drag: seq<real>, i: nat): real
    requires i < |e| == |drag| + 1
  {
    if i == 0 then 100.0 else Moved(Recompounded(e, drag, i - 1), C.Flat(Derived(e, i)) - drag[i - 1])
  }

  /** The returns that the kernels report; bar 0 has none. */
  method DeriveReturns(e: seq<real>) returns (r: seq<Num>)
    ensures |r| == |e| && (|e| > 0 ==> r[0] == None)
    ensures forall i :: 1 <= i < |e| ==> r[i] == Derived(e, i)
  {
    r := seq(|e|, _ => None);
    if |e| == 0 {
      return;
    }
    for i := 1 to |e|
      invariant |r| == |e| && r[0] == None
      invariant forall j :: 1 <= j < i ==> r[j] == Derived(e, j)
      invariant forall j :: i <= j < |e| ==> r[j] == None
    {
      if e[i - 1] != 0.0 {
        r := r[i := Some((e[i] - e[i - 1]) / e[i - 1])];
      }
    }
  }

  method ApplyCosts(e: seq<real>, turnover: seq<real>, cfg: C.CostConfig)
    returns (equity: array<real>, slip: array<real>, fees: array<real>, slippagePct: real, feesPct: real)
    requires |e| == |turnover| + 1 && |turnover| > 0
    ensures equity.Length == |e| && slip.Length == fees.Length == |turnover|
    ensures forall s :: 0 <= s < |turnover| ==>
              10000.0 * slip[s] == cfg.slippageBps * turnover[s] && 10000.0 * fees[s] == cfg.feesBps * turnover[s]
    ensures forall i :: 0 <= i < |e| ==> equity[i] == Recompounded(e, Both(slip[..], fees[..]), i)
    ensures slippagePct == 100.0 * C.Charged(C.Finite(slip[..]), StartEquity(equity[..]), |turnover|)
    ensures feesPct == 100.0 * C.Charged(C.Finite(fees[..]), StartEquity(equity[..]), |turnover|)
    ensures equity[0] == 100.0
    ensures slippagePct * equity[0] == 100.0 * Borne(slip[..], equity[..], |turnover|)
    ensures feesPct * equity[0] == 100.0 * Borne(fees[..], equity[..], |turnover|)
  {
    RecompoundedStart(e);
    hide Recompounded, C.Charged, Borne, StartEquity;
    slip, fees := C.SplitDrag(turnover, cfg);
    equity := Recompound(e, slip[..], fees[..]);
    var start := StartEquity(equity[..]);
    slippagePct := C.CumulativeCostPct(C.Finite(slip[..]), start);
    feesPct := C.CumulativeCostPct(C.Finite(fees[..]), start);
    ChargedIsBorne(slip[..], equity[..], |turnover|);
    ChargedIsBorne(fees[..], equity[..], |turnover|);
  }

  lemma RecompoundedStart(e: seq<real>)
    ensures forall drag: seq<real> :: |e| == |drag| + 1 ==> Recompounded(e, drag, 0) == 100.0
  {}

  /** What the first t drags take, each off the equity that its step starts with. */
  function Borne(drag: seq<real>, equity: seq<real>, t: nat): real
    requires t <= |drag| && t <= |equity|
  {
    if t == 0 then 0.0 else Borne(drag, equity, t - 1) + drag[t - 1] * equity[t - 1]
  }

  lemma StartIs(equity: seq<real>, s: nat)
    requires s + 1 < |equity| && equity[0] != 0.0
    ensures StartEquity(equity)[s].Some? && StartEquity(equity)[s].value * equity[0] == equity[s]
  {}

  lemma StepBorne(d: real, x: real, y: real, e0: real, sum: real)
    requires x * e0 == y
    ensures (sum + d * x) * e0 == sum * e0 + d * y
  {
    assert (d * x) * e0 == d * (x * e0);
  }

  /** The charges, which are fractions of the first equity, in units of the curve. */
  lemma {:induction false} ChargedIsBorne(drag: seq<real>, equity: seq<real>, t: nat)
    requires |equity| == |drag| + 1 && t <= |drag| && equity[0] != 0.0
    ensures C.Charged(C.Finite(drag), StartEquity(equity), t) * equity[0] == Borne(drag, equity, t)
  {
    hide StartEquity;
    if t > 0 {
      ChargedIsBorne(drag, equity, t - 1);
      StartIs(equity, t - 1);
      var x := StartEquity(equity)[t - 1].value;
      StepBorne(drag[t - 1], x, equity[t - 1], equity[0], C.Charged(C.Finite(drag), StartEquity(equity), t - 1));
    }
  }

  function Both(a: seq<real>, b: seq<real>): (c: seq<real>)
    requires |a| == |b|
    ensures |c| == |a| && forall s :: 0 <= s < |a| ==> c[s] == a[s] + b[s]
  {
    seq(|a|, s requires 0 <= s < |a| => a[s] + b[s])
  }

  /** The equity that each step starts with, in units of the first. */
  function StartEquity(e: seq<real>): (start: seq<Num>)
    requires |e| > 0
    ensures |start| == |e| - 1
  {
    seq(|e| - 1, s requires 0 <= s < |e| - 1 => if e[0] == 0.0 then None else Some(e[s] / e[0]))
  }

  method Recompound(e: seq<real>, slip: seq<real>, fees: seq<real>) returns (equity: array<real>)
    requires |e| == |slip| + 1 == |fees| + 1
    ensures equity.Length == |e|
    ensures forall i :: 0 <= i < |e| ==> equity[i] == Recompounded(e, Both(slip, fees), i)
  {
    hide Derived, C.Flat, Moved, Recompounded;
    RecompoundedFrom(e, Both(slip, fees));
    equity := new real[|e|];
    equity[0] := 100.0;
    for i := 1 to |e|
      invariant forall j :: 0 <= j < i ==> equity[j] == Recompounded(e, Both(slip, fees), j)
    {
      equity[i] := Moved(equity[i - 1], C.Flat(Derived(e, i)) - (slip[i - 1] + fees[i - 1]));
    }
  }

  lemma RecompoundedFrom(e: seq<real>, drag: seq<real>)
    requires |e| == |drag| + 1
    ensures Recompounded(e, drag, 0) == 100.0
    ensures forall i :: 1 <= i < |e| ==>
              Recompounded(e, drag, i) == Moved(Recompounded(e, drag, i - 1), C.Flat(Derived(e, i)) - drag[i - 1])
  {
    hide Derived, C.Flat, Moved;
  }

  // ----- Without a drag ----------------------------------------------------

  /** The curve has touched 0 before bar i. */
  predicate Wiped(e: seq<real>, i: nat)
    requires i <= |e|
  {
    exists j :: 0 <= j < i && e[j] == 0.0
  }

  lemma Chained(x: real, y: real)
    requires x != 0.0
    ensures Moved(x, (y - x) / x) == y
  {
    assert (y - x) / x * x == y - x;
  }

  /** Compounding the derived returns gives the curve back up to the first bar on
      which it is 0, and 0 from then on, even where the gross curve goes on. */
  lemma {:induction false} RecompoundedGross(e: seq<real>, drag: seq<real>, i: nat)
    requires i < |e| == |drag| + 1 && e[0] == 100.0 && forall s :: 0 <= s < |drag| ==> drag[s] == 0.0
    ensures Recompounded(e, drag, i) == if Wiped(e, i) then 0.0 else e[i]
  {
    hide Moved;
    if i > 0 {
      RecompoundedGross(e, drag, i - 1);
      if !Wiped(e, i) {
        assert e[i - 1] != 0.0;
        Chained(e[i - 1], e[i]);
      } else {
        assert Wiped(e, i - 1) || e[i - 1] == 0.0;
        NoFactorZero(0.0, C.Flat(Derived(e, i)) - drag[i - 1]);
      }
    }
  }

  // ----- With one ----------------------------------------------------------

  /** A step of the net curve grows as the gross one does, less its drag: over the
      gross start of the step, what the gross curve makes and what the drag takes. */
  lemma NetGrowth(e: seq<real>, drag: seq<real>, i: nat)
    requires 0 < i < |e| == |drag| + 1 && e[i - 1] != 0.0
    ensures var n, n' := Recompounded(e, drag, i - 1), Recompounded(e, drag, i);
            n' * e[i - 1] == n * (e[i] - drag[i - 1] * e[i - 1])
  {
    var n, x, g := Recompounded(e, drag, i - 1), e[i - 1], (e[i] - e[i - 1]) / e[i - 1];
    assert g * x == e[i] - x;
    assert (1.0 + (g - drag[i - 1])) * x == e[i] - drag[i - 1] * x;
    assert Recompounded(e, drag, i) == n * (1.0 + (g - drag[i - 1]));
  }

  lemma CostStep(x: real, n: real, y: real, d: real)
    requires x > 0.0 && 0.0 <= n <= x && d >= 0.0 && 1.0 + ((y - x) / x - d) >= 0.0
    ensures 0.0 <= Moved(n, (y - x) / x - d) <= y
  {
    var g := 1.0 + (y - x) / x;
    Chained(x, y);
    C.PositiveProduct(n, g - d);
    C.PositiveProduct(x - n, g);
    C.PositiveProduct(n, d);
    assert n * (g - d) == x * g - (x - n) * g - n * d;
  }

  /** Costs never help: as long as the gross curve is positive and no step costs more
      than it leaves, the net curve lies between 0 and the gross one. */
  lemma {:induction false} CostsNeverHelp(e: seq<real>, drag: seq<real>, i: nat)
    requires i < |e| == |drag| + 1 && e[0] == 100.0
    requires forall s :: 0 <= s < |drag| ==> drag[s] >= 0.0
    requires forall j :: 0 <= j < i ==> e[j] > 0.0 && 1.0 + (C.Flat(Derived(e, j + 1)) - drag[j]) >= 0.0
    ensures 0.0 <= Recompounded(e, drag, i) <= e[i]
  {
    hide Moved;
    if i > 0 {
      CostsNeverHelp(e, drag, i - 1);
      assert e[i - 1] > 0.0 && 1.0 + (C.Flat(Derived(e, (i - 1) + 1)) - drag[i - 1]) >= 0.0;
      CostStep(e[i - 1], Recompounded(e, drag, i - 1), e[i], drag[i - 1]);
    }
  }

  // ----- The daily kernel --------------------------------------------------

  /** The daily kernel takes the drags off its own returns and compounds once. */
  function DailyNet(p: Panel, drag: seq<real>, i: nat): real
    requires Shaped(p) && i < p.n == |drag| + 1
  {
    if i == 0 then 100.0 else Moved(DailyNet(p, drag, i - 1), Earned(p, p.w, i, |p.w|) - drag[i - 1])
  }

  method DailyWithCosts(p: Panel, roll: seq<real>, cfg: C.CostConfig)
    returns (equity: array<real>, turnover: seq<real>, slip: array<real>, fees: array<real>)
    requires Shaped(p) && p.n >= 2 && |roll| == p.n - 1
    ensures equity.Length == p.n && |turnover| == slip.Length == fees.Length == p.n - 1
    ensures forall s :: 0 <= s < p.n - 1 ==>
              turnover[s] == C.Establish(Targets(p), Rows(p), Steps(p), s, |p.w|) + roll[s]
    ensures forall s :: 0 <= s < p.n - 1 ==>
              10000.0 * slip[s] == cfg.slippageBps * turnover[s] && 10000.0 * fees[s] == cfg.feesBps * turnover[s]
    ensures forall i :: 0 <= i < p.n ==> equity[i] == DailyNet(p, Both(slip[..], fees[..]), i)
  {
    hide C.Establish;
    var est := C.EstablishTurnover(Targets(p), Rows(p), Steps(p), |p.w|);
    var billed := est.value[..];
    turnover := seq(p.n - 1, s requires 0 <= s < p.n - 1 && |billed| == p.n - 1 => billed[s] + roll[s]);
    slip, fees := C.SplitDrag(turnover, cfg);
    equity := CompoundDaily(p, slip[..], fees[..]);
  }

  method CompoundDaily(p: Panel, slip: seq<real>, fees: seq<real>) returns (equity: array<real>)
    requires Shaped(p) && p.n == |slip| + 1 == |fees| + 1
    ensures equity.Length == p.n && fresh(equity)
    ensures forall i :: 0 <= i < p.n ==> equity[i] == DailyNet(p, Both(slip, fees), i)
  {
    hide Moved, Earned, DailyNet;
    DailyFrom(p, Both(slip, fees));
    equity := new real[p.n];
    equity[0] := 100.0;
    for i := 1 to p.n
      invariant forall j :: 0 <= j < i ==> equity[j] == DailyNet(p, Both(slip, fees), j)
    {
      equity[i] := Moved(equity[i - 1], Earned(p, p.w, i, |p.w|) - (slip[i - 1] + fees[i - 1]));
    }
  }

  lemma DailyFrom(p: Panel, drag: seq<real>)
    requires Shaped(p) && p.n == |drag| + 1
    ensures DailyNet(p, drag, 0) == 100.0
    ensures forall i :: 1 <= i < p.n ==>
              DailyNet(p, drag, i) == Moved(DailyNet(p, drag, i - 1), Earned(p, p.w, i, |p.w|) - drag[i - 1])
  {
    hide Moved, Earned;
  }

  lemma DerivedIs(x: real, r: real)
    requires x != 0.0
    ensures (Moved(x, r) - x) / x == r
  {
    assert (Moved(x, r) - x) / x * x == r * x;
    Cancel((Moved(x, r) - x) / x, r, x);
  }

  /** That is what the overlay makes of the daily kernel's gross curve, as long as the
      gross curve has not touched 0. */
  lemma {:induction false} DailyIsOverlay(p: Panel, e: seq<real>, drag: seq<real>, i: nat)
    requires Shaped(p) && i < p.n == |e| == |drag| + 1 && forall j :: 0 <= j < p.n ==> e[j] == Daily(p, j)
    requires !Wiped(e, i)
    ensures DailyNet(p, drag, i) == Recompounded(e, drag, i)
  {
    hide Moved, Earned;
    if i > 0 {
      DailyIsOverlay(p, e, drag, i - 1);
      assert e[i - 1] != 0.0;
      DerivedIs(e[i - 1], Earned(p, p.w, i, |p.w|));
    }
  }

  // ----- When a boundary is billed -----------------------------------------

  /** The panel as the matrices that the daily kernel's turnover is billed on. */
  function Targets(p: Panel): (pos: seq<seq<real>>)
    ensures |pos| == p.n && forall s :: 0 <= s < p.n ==> pos[s] == p.w
  {
    seq(p.n, _ => p.w)
  }

  function Rows(p: Panel): (rets: seq<seq<Num>>)
    requires Shaped(p)
    ensures |rets| == p.n && forall s :: 0 <= s < p.n ==> |rets[s]| == |p.w|
    ensures forall s, l :: 0 <= s < p.n && 0 <= l < |p.w| ==> rets[s][l] == p.rets[l][s]
  {
    seq(p.n, s requires 0 <= s < p.n => seq(|p.w|, l requires 0 <= l < |p.w| => p.rets[l][s]))
  }

  function Steps(p: Panel): (net: seq<Num>)
    requires Shaped(p)
    ensures |net| == p.n - 1 && forall s :: 0 <= s < p.n - 1 ==> net[s] == Some(Earned(p, p.w, s + 1, |p.w|))
  {
    seq(p.n - 1, s requires 0 <= s < p.n - 1 => Some(Earned(p, p.w, s + 1, |p.w|)))
  }

  lemma NoFactorZero(x: real, r: real)
    ensures x == 0.0 || 1.0 + r == 0.0 ==> Moved(x, r) == 0.0
  {}

  lemma DriftedShare(w: real, nav: real, x: real, r: real, e: real, nav': real)
    requires nav' == Moved(nav, e) && nav' > 0.0 && x == w * nav
    ensures 1.0 + e != 0.0 && Moved(x, r) / nav' == C.Shifted(w, r, e)
  {
    NoFactorZero(nav, e);
    var a, b := Moved(x, r) / nav', C.Shifted(w, r, e);
    assert a * nav' == (w * nav) * (1.0 + r);
    assert b * (1.0 + e) == w * (1.0 + r);
    assert b * nav' == (b * (1.0 + e)) * nav;
    Cancel(a, b, nav');
  }

  /** The notionals and the NAV of a bar that starts from the weights. */
  lemma RestoredBar(p: Panel, bounds: seq<bool>, s: nat, l: nat)
    requires Shaped(p) && |bounds| == p.n && 0 < s < p.n && bounds[s] && l < |p.w|
    ensures var before, now := LeveredAt(p, bounds, s - 1), LeveredAt(p, bounds, s);
            && now.notional[l] == Moved(Scaled(p.w, before.nav)[l], Ret(p, l, s))
            && now.nav == Moved(before.nav, Earned(p, p.w, s, |p.w|))
  {
    hide LeveredAt, Earned, Moved, Ret, Scaled;
    LeveredNext(p, bounds, s);
    LeveredBoundary(p, bounds, s);
  }

  /** The weight that leg l has drifted to on bar s, from either kernel's side. */
  lemma SameDrift(p: Panel, bounds: seq<bool>, s: nat, l: nat)
    requires Shaped(p) && |bounds| == p.n && 0 < s < p.n - 1 && bounds[s] && l < |p.w|
    requires LeveredAt(p, bounds, s).nav > 0.0
    ensures LeveredAt(p, bounds, s).notional[l] / LeveredAt(p, bounds, s).nav ==
            C.Drifted(p.w[l], p.rets[l][s], Some(Earned(p, p.w, s, |p.w|)))
  {
    hide LeveredAt, Earned, Moved, Scaled, C.Shifted;
    RestoredBar(p, bounds, s, l);
    DriftedShare(p.w[l], LeveredAt(p, bounds, s - 1).nav, Scaled(p.w, LeveredAt(p, bounds, s - 1).nav)[l], Ret(p, l, s),
                 Earned(p, p.w, s, |p.w|), LeveredAt(p, bounds, s).nav);
  }

  lemma {:induction false} DistanceIsEstablished(p: Panel, bounds: seq<bool>, s: nat, k: nat)
    requires Shaped(p) && |bounds| == p.n && 0 < s < p.n - 1 && bounds[s] && k <= |p.w|
    requires LeveredAt(p, bounds, s).nav > 0.0
    ensures Distance(p.w, LeveredAt(p, bounds, s), k) == C.Establish(Targets(p), Rows(p), Steps(p), s, k)
  {
    hide LeveredAt, Earned, AbsReal, C.Drifted;
    if k > 0 {
      DistanceIsEstablished(p, bounds, s, k - 1);
      SameDrift(p, bounds, s, k - 1);
    }
  }

  /** With a boundary at every bar the raw-weight kernel and the daily kernel hold
      the same positions, but not the same bill: what the daily kernel is billed for
      restoring the weights after bar s, the periodic one is billed one bar later. */
  lemma BoundaryBilledLate(p: Panel, bounds: seq<bool>, s: nat)
    requires Shaped(p) && |bounds| == p.n && 0 < s < p.n - 1 && bounds[s] && bounds[s + 1]
    requires LeveredAt(p, bounds, s).nav > 0.0
    ensures LeveredTurnover(p, bounds, s + 1) == C.Establish(Targets(p), Rows(p), Steps(p), s, |p.w|)
  {
    hide LeveredAt, Distance;
    DistanceIsEstablished(p, bounds, s, |p.w|);
  }

  /** So nothing is billed on the first boundary, whose legs have not drifted. */
  lemma FirstBoundaryFree(p: Panel, bounds: seq<bool>)
    requires Shaped(p) && |bounds| == p.n && 1 < p.n && bounds[1]
    ensures LeveredTurnover(p, bounds, 1) == 0.0
  {
    LeveredStart(p, bounds);
    LeveredTurnoverZero(p, bounds, 1);
  }
}
