/** The portfolio kernels on simple returns, before costs: weights restored every
    bar, never, or, with raw weights, at period boundaries. */
module Rebalance {
  import opened Wrappers

  type Num = Option<real>

  /** Signed weights and per-leg returns over n bars; bar 0 has no return. */
  datatype Panel = Panel(w: seq<real>, rets: seq<seq<Num>>, n: nat)

  predicate Shaped(p: Panel) {
    p.n > 0 && |p.rets| == |p.w| && forall l :: 0 <= l < |p.w| ==> |p.rets[l]| == p.n
  }

  /** A leg is held flat over a bar without a finite return. */
  function Ret(p: Panel, l: nat, i: nat): real
    requires Shaped(p) && l < |p.w| && i < p.n
  {
    if p.rets[l][i].Some? then p.rets[l][i].value else 0.0
  }

  function Sum(x: seq<real>, k: nat): real
    requires k <= |x|
  {
    if k == 0 then 0.0 else Sum(x, k - 1) + x[k - 1]
  }

  /** What an exposure earns over a bar, and what it becomes. */
  function Gain(x: real, r: real): real {
    x * r
  }

  function Moved(x: real, r: real): real {
    x * (1.0 + r)
  }

  lemma HeldFlat(x: real)
    ensures Gain(x, 0.0) == 0.0 && Moved(x, 0.0) == x
  {}

  /** What exposures x earn on bar i, over the first k legs. */
  function Earned(p: Panel, x: seq<real>, i: nat, k: nat): real
    requires Shaped(p) && i < p.n && k <= |x| == |p.w|
  {
    if k == 0 then 0.0 else Earned(p, x, i, k - 1) + Gain(x[k - 1], Ret(p, k - 1, i))
  }

  function Scaled(x: seq<real>, c: real): (y: seq<real>)
    ensures |y| == |x| && forall l :: 0 <= l < |x| ==> y[l] == x[l] * c
  {
    seq(|x|, l requires 0 <= l < |x| => x[l] * c)
  }

  function Gross(w: seq<real>): (y: seq<real>)
    ensures |y| == |w| && forall l :: 0 <= l < |w| ==> y[l] == AbsReal(w[l])
  {
    seq(|w|, l requires 0 <= l < |w| => AbsReal(w[l]))
  }

  // ----- Daily -------------------------------------------------------------

  /** Compounding with the weights restored every bar. */
  function Daily(p: Panel, i: nat): real
    requires Shaped(p) && i < p.n
  {
    if i == 0 then 100.0 else Moved(Daily(p, i - 1), Earned(p, p.w, i, |p.w|))
  }

  /** The curve that compounds returns r from an initial value; r[0] is ignored. */
  method EquityCurve(r: seq<real>, initial: real) returns (curve: array<real>)
    ensures curve.Length == |r|
    ensures forall i :: 0 <= i < |r| ==> curve[i] == Curve(r, initial, i)
  {
    curve := new real[|r|];
    if |r| == 0 {
      return;
    }
    curve[0] := initial;
    for i := 1 to |r|
      invariant forall j :: 0 <= j < i ==> curve[j] == Curve(r, initial, j)
    {
      curve[i] := Moved(curve[i - 1], r[i]);
    }
  }

  function Curve(r: seq<real>, initial: real, i: nat): real
    requires i < |r|
  {
    if i == 0 then initial else Moved(Curve(r, initial, i - 1), r[i])
  }

  /** Every leg is reported at its weight's share of the whole. */
  function DailyLeg(p: Panel, l: nat, i: nat): real
    requires Shaped(p) && l < |p.w| && i < p.n
  {
    Daily(p, i) * AbsReal(p.w[l])
  }

  method DailyRebalance(p: Panel) returns (equity: array<real>, legs: array2<real>)
    requires Shaped(p)
    ensures equity.Length == p.n && legs.Length0 == |p.w| && legs.Length1 == p.n
    ensures forall i :: 0 <= i < p.n ==> equity[i] == Daily(p, i)
    ensures forall l, i :: 0 <= l < |p.w| && 0 <= i < p.n ==> legs[l, i] == DailyLeg(p, l, i)
  {
    hide DailyLeg;
    var acc := new real[p.n](_ => 0.0);
    for l := 0 to |p.w|
      invariant forall i :: 1 <= i < p.n ==> acc[i] == Earned(p, p.w, i, l)
    {
      for i := 1 to p.n
        invariant forall j :: 1 <= j < p.n ==> acc[j] == Earned(p, p.w, j, if j < i then l + 1 else l)
      {
        acc[i] := acc[i] + Gain(p.w[l], Ret(p, l, i));
      }
    }
    equity := EquityCurve(acc[..], 100.0);
    DailyIsCurve(p, acc[..]);
    legs := DailyLegs(p, equity);
  }

  method DailyLegs(p: Panel, equity: array<real>) returns (legs: array2<real>)
    requires Shaped(p) && equity.Length == p.n
    requires forall i :: 0 <= i < p.n ==> equity[i] == Daily(p, i)
    ensures legs.Length0 == |p.w| && legs.Length1 == p.n && fresh(legs)
    ensures forall l, i :: 0 <= l < |p.w| && 0 <= i < p.n ==> legs[l, i] == DailyLeg(p, l, i)
  {
    hide Daily, AbsReal;
    legs := new real[|p.w|, p.n];
    for l := 0 to |p.w|
      invariant forall m, j :: 0 <= m < l && 0 <= j < p.n ==> legs[m, j] == DailyLeg(p, m, j)
    {
      for i := 0 to p.n
        invariant forall m, j :: 0 <= m < |p.w| && 0 <= j < p.n && (m < l || (m == l && j < i)) ==>
                    legs[m, j] == DailyLeg(p, m, j)
      {
        legs[l, i] := equity[i] * AbsReal(p.w[l]);
      }
    }
  }

  lemma {:induction false} DailyIsCurve(p: Panel, r: seq<real>)
    requires Shaped(p) && |r| == p.n
    requires forall i :: 1 <= i < p.n ==> r[i] == Earned(p, p.w, i, |p.w|)
    ensures forall i :: 0 <= i < p.n ==> Curve(r, 100.0, i) == Daily(p, i)
  {
    for i := 1 to p.n
      invariant forall j :: 0 <= j < i ==> Curve(r, 100.0, j) == Daily(p, j)
    {}
  }

  // ----- Buy and hold ------------------------------------------------------

  /** The growth of leg l from bar 0 to bar i, from an initial value. */
  function Grown(p: Panel, l: nat, initial: real, i: nat): real
    requires Shaped(p) && l < |p.w| && i < p.n
  {
    if i == 0 then initial else Moved(Grown(p, l, initial, i - 1), Ret(p, l, i))
  }

  /** A short leg gives back twice its initial value less the long one. */
  function LegValue(p: Panel, l: nat, i: nat): real
    requires Shaped(p) && l < |p.w| && i < p.n
  {
    var initial := AbsReal(p.w[l]) * 100.0;
    if p.w[l] < 0.0 then 2.0 * initial - Grown(p, l, initial, i) else Grown(p, l, initial, i)
  }

  function HoldTotal(p: Panel, i: nat, k: nat): real
    requires Shaped(p) && i < p.n && k <= |p.w|
  {
    if k == 0 then 0.0 else HoldTotal(p, i, k - 1) + LegValue(p, k - 1, i)
  }

  function BuyAndHold(p: Panel, i: nat, normalize: bool): real
    requires Shaped(p) && i < p.n
  {
    if normalize then HoldTotal(p, i, |p.w|)
    else HoldTotal(p, i, |p.w|) - Sum(Gross(p.w), |p.w|) * 100.0 + 100.0
  }

  method BuyAndHoldKernel(p: Panel, normalize: bool) returns (equity: array<real>, legs: array2<real>)
    requires Shaped(p)
    ensures equity.Length == p.n && legs.Length0 == |p.w| && legs.Length1 == p.n
    ensures forall i :: 0 <= i < p.n ==> equity[i] == BuyAndHold(p, i, normalize)
    ensures forall l, i :: 0 <= l < |p.w| && 0 <= i < p.n ==> legs[l, i] == LegValue(p, l, i)
  {
    hide LegValue;
    legs := new real[|p.w|, p.n];
    equity := new real[p.n](_ => 0.0);
    var gross := 0.0;
    for l := 0 to |p.w|
      invariant gross == Sum(Gross(p.w), l)
      invariant forall i :: 0 <= i < p.n ==> equity[i] == HoldTotal(p, i, l)
      invariant forall m, j :: 0 <= m < l && 0 <= j < p.n ==> legs[m, j] == LegValue(p, m, j)
    {
      var leg := LegCurve(p, l);
      for i := 0 to p.n
        invariant forall j :: 0 <= j < p.n ==> equity[j] == HoldTotal(p, j, if j < i then l + 1 else l)
        invariant forall j :: 0 <= j < p.n ==> leg[j] == LegValue(p, l, j)
        invariant forall m, j :: 0 <= m < |p.w| && 0 <= j < p.n && (m < l || (m == l && j < i)) ==>
                    legs[m, j] == LegValue(p, m, j)
      {
        equity[i] := equity[i] + leg[i];
        legs[l, i] := leg[i];
      }
      gross := gross + AbsReal(p.w[l]);
    }
    if !normalize {
      ShiftBase(p, gross, equity);
    }
  }

  /** Replace the gross-notional base by the NAV base. */
  method ShiftBase(p: Panel, gross: real, equity: array<real>)
    requires Shaped(p) && equity.Length == p.n && gross == Sum(Gross(p.w), |p.w|)
    requires forall i :: 0 <= i < p.n ==> equity[i] == HoldTotal(p, i, |p.w|)
    modifies equity
    ensures forall i :: 0 <= i < p.n ==> equity[i] == BuyAndHold(p, i, false)
  {
    for i := 0 to p.n
      invariant forall j :: 0 <= j < p.n ==>
                  equity[j] == if j < i then BuyAndHold(p, j, false) else HoldTotal(p, j, |p.w|)
    {
      equity[i] := equity[i] - gross * 100.0 + 100.0;
    }
  }

  method LegCurve(p: Panel, l: nat) returns (leg: array<real>)
    requires Shaped(p) && l < |p.w|
    ensures leg.Length == p.n && fresh(leg)
    ensures forall i :: 0 <= i < p.n ==> leg[i] == LegValue(p, l, i)
  {
    hide Grown, Curve, Rets, Moved, AbsReal;
    var initial := AbsReal(p.w[l]) * 100.0;
    var long := EquityCurve(Rets(p, l), initial);
    CurveIsGrown(p, l, initial);
    leg := new real[p.n];
    for i := 0 to p.n
      invariant forall j :: 0 <= j < p.n ==> long[j] == Grown(p, l, initial, j)
      invariant forall j :: 0 <= j < i ==> leg[j] == LegValue(p, l, j)
    {
      leg[i] := if p.w[l] < 0.0 then 2.0 * initial - long[i] else long[i];
    }
  }

  /** The returns of leg l. */
  function Rets(p: Panel, l: nat): (r: seq<real>)
    requires Shaped(p) && l < |p.w|
    ensures |r| == p.n
  {
    seq(p.n, i requires 0 <= i < p.n => Ret(p, l, i))
  }

  lemma {:induction false} CurveIsGrown(p: Panel, l: nat, initial: real)
    requires Shaped(p) && l < |p.w|
    ensures forall i :: 0 <= i < p.n ==> Curve(Rets(p, l), initial, i) == Grown(p, l, initial, i)
  {
    var r := Rets(p, l);
    for i := 1 to p.n
      invariant forall j :: 0 <= j < i ==> Curve(r, initial, j) == Grown(p, l, initial, j)
    {}
  }

  // ----- Periodic, raw weights ---------------------------------------------

  /** NAV and the signed notional of every leg. */
  datatype Levered = Levered(nav: real, notional: seq<real>)

  function Drift(p: Panel, x: seq<real>, i: nat): (y: seq<real>)
    requires Shaped(p) && i < p.n && |x| == |p.w|
    ensures |y| == |x| && forall l :: 0 <= l < |x| ==> y[l] == Moved(x[l], Ret(p, l, i))
  {
    seq(|x|, l requires 0 <= l < |x| => Moved(x[l], Ret(p, l, i)))
  }

  /** The notionals that bar i starts with. */
  function Reset(p: Panel, s: Levered, boundary: bool): (x: seq<real>)
    requires |s.notional| == |p.w|
    ensures |x| == |p.w|
  {
    if boundary then Scaled(p.w, s.nav) else s.notional
  }

  function LeveredAt(p: Panel, bounds: seq<bool>, i: nat): (s: Levered)
    requires Shaped(p) && |bounds| == p.n && i < p.n
    ensures |s.notional| == |p.w|
  {
    if i == 0 then Levered(100.0, Scaled(p.w, 100.0))
    else
      var s := LeveredAt(p, bounds, i - 1);
      var x := Reset(p, s, bounds[i]);
      Levered(s.nav + Earned(p, x, i, |p.w|), Drift(p, x, i))
  }

  /** What it takes, over the first k legs, to bring the notionals back to the
      weights, in units of NAV. */
  function Distance(w: seq<real>, s: Levered, k: nat): real
    requires k <= |w| == |s.notional| && s.nav != 0.0
  {
    if k == 0 then 0.0 else Distance(w, s, k - 1) + AbsReal(w[k - 1] - s.notional[k - 1] / s.nav)
  }

  /** The turnover of bar i: of the entry, and of a boundary that there is still
      capital for. */
  function LeveredTurnover(p: Panel, bounds: seq<bool>, i: nat): real
    requires Shaped(p) && |bounds| == p.n && i < p.n
  {
    if i == 0 then Sum(Gross(p.w), |p.w|)
    else if !bounds[i] || LeveredAt(p, bounds, i - 1).nav <= 0.0 then 0.0
    else Distance(p.w, LeveredAt(p, bounds, i - 1), |p.w|)
  }

  lemma AtWeight(w: real, x: real, nav: real)
    requires nav > 0.0
    ensures AbsReal(w - x / nav) == 0.0 <==> x == w * nav
  {
    assert x / nav * nav == x;
    if x == w * nav {
      Cancel(x / nav, w, nav);
    }
  }

  lemma {:induction false} DistanceZero(w: seq<real>, s: Levered, k: nat)
    requires k <= |w| == |s.notional| && s.nav > 0.0
    ensures Distance(w, s, k) >= 0.0
    ensures Distance(w, s, k) == 0.0 <==> forall l :: 0 <= l < k ==> s.notional[l] == Scaled(w, s.nav)[l]
  {
    hide AbsReal;
    if k > 0 {
      DistanceZero(w, s, k - 1);
      AtWeight(w[k - 1], s.notional[k - 1], s.nav);
    }
  }

  /** A boundary bills nothing exactly when it has nothing to trade. */
  lemma LeveredTurnoverZero(p: Panel, bounds: seq<bool>, i: nat)
    requires Shaped(p) && |bounds| == p.n && 0 < i < p.n && bounds[i] && LeveredAt(p, bounds, i - 1).nav > 0.0
    ensures LeveredTurnover(p, bounds, i) >= 0.0
    ensures LeveredTurnover(p, bounds, i) == 0.0 <==>
            Reset(p, LeveredAt(p, bounds, i - 1), true) == LeveredAt(p, bounds, i - 1).notional
  {
    hide LeveredAt, Scaled, Distance;
    DistanceZero(p.w, LeveredAt(p, bounds, i - 1), |p.w|);
  }

  /** What it takes to move the first k values from x to y. */
  function Traded(x: seq<real>, y: seq<real>, k: nat): real
    requires k <= |x| == |y|
  {
    if k == 0 then 0.0 else Traded(x, y, k - 1) + AbsReal(y[k - 1] - x[k - 1])
  }

  lemma GapInUnits(w: real, x: real, nav: real)
    requires nav > 0.0
    ensures AbsReal(w - x / nav) * nav == AbsReal(w * nav - x)
  {
    var d := w - x / nav;
    assert x / nav * nav == x;
    assert d * nav == w * nav - x;
    if d >= 0.0 { assert d * nav >= 0.0; } else { assert -d * nav > 0.0; }
  }

  lemma AddScaled(a: real, b: real, k: real)
    ensures (a + b) * k == a * k + b * k
  {}

  lemma {:induction false} DistanceTraded(w: seq<real>, s: Levered, k: nat)
    requires k <= |w| == |s.notional| && s.nav > 0.0
    ensures Distance(w, s, k) * s.nav == Traded(s.notional, Scaled(w, s.nav), k)
  {
    hide AbsReal, Scaled;
    if k > 0 {
      DistanceTraded(w, s, k - 1);
      StepInUnits(Distance(w, s, k - 1), w[k - 1], s.notional[k - 1], s.nav, Scaled(w, s.nav)[k - 1]);
    }
  }

  lemma StepInUnits(d: real, w: real, x: real, nav: real, y: real)
    requires nav > 0.0 && y == w * nav
    ensures (d + AbsReal(w - x / nav)) * nav == d * nav + AbsReal(y - x)
  {
    AddScaled(d, AbsReal(w - x / nav), nav);
    GapInUnits(w, x, nav);
  }

  /** A boundary is billed what it trades: turnover times NAV is the notional that
      is moved to get from the drifted book to the reset one. */
  lemma LeveredTurnoverTrades(p: Panel, bounds: seq<bool>, i: nat)
    requires Shaped(p) && |bounds| == p.n && 0 < i < p.n && bounds[i] && LeveredAt(p, bounds, i - 1).nav > 0.0
    ensures var s := LeveredAt(p, bounds, i - 1);
            LeveredTurnover(p, bounds, i) * s.nav == Traded(s.notional, Reset(p, s, true), |p.w|)
  {
    hide LeveredAt, Scaled, Distance, Traded;
    DistanceTraded(p.w, LeveredAt(p, bounds, i - 1), |p.w|);
  }

  method BoundaryTurnover(w: seq<real>, s: Levered) returns (turn: real)
    requires |w| == |s.notional|
    ensures turn == if s.nav > 0.0 then Distance(w, s, |w|) else 0.0
  {
    hide AbsReal;
    turn := 0.0;
    if s.nav > 0.0 {
      for l := 0 to |w|
        invariant turn == Distance(w, s, l)
      {
        turn := turn + AbsReal(w[l] - s.notional[l] / s.nav);
      }
    }
  }

  method PeriodicLevered(p: Panel, bounds: seq<bool>)
    returns (equity: array<real>, legs: array2<real>, turnover: array<real>)
    requires Shaped(p) && |bounds| == p.n
    ensures equity.Length == turnover.Length == p.n && legs.Length0 == |p.w| && legs.Length1 == p.n
    ensures forall i :: 0 <= i < p.n ==> turnover[i] == LeveredTurnover(p, bounds, i)
    ensures forall i :: 0 <= i < p.n ==> equity[i] == LeveredAt(p, bounds, i).nav
    ensures forall l, i :: 0 <= l < |p.w| && 0 <= i < p.n ==>
              legs[l, i] == AbsReal(LeveredAt(p, bounds, i).notional[l])
  {
    hide LeveredAt, Scaled, AbsReal, LeveredTurnover;
    LeveredStart(p, bounds);
    var entry := GrossWeight(p.w);
    equity, turnover, legs := new real[p.n], new real[p.n], new real[|p.w|, p.n];
    var s := Levered(100.0, Scaled(p.w, 100.0));
    equity[0], turnover[0] := s.nav, entry;
    RecordLegs(Gross(s.notional), 0, legs);
    for i := 1 to p.n
      invariant s == LeveredAt(p, bounds, i - 1)
      invariant forall j :: 0 <= j < i ==> equity[j] == LeveredAt(p, bounds, j).nav
      invariant forall j :: 0 <= j < i ==> turnover[j] == LeveredTurnover(p, bounds, j)
      invariant forall l, j :: 0 <= l < |p.w| && 0 <= j < i ==>
                  legs[l, j] == AbsReal(LeveredAt(p, bounds, j).notional[l])
    {
      var turn;
      s, turn := LeveredBar(p, bounds, i, s);
      equity[i], turnover[i] := s.nav, turn;
      RecordLegs(Gross(s.notional), i, legs);
    }
  }

  /** One bar of the loop: the boundary, if there is one, and the drift. */
  method LeveredBar(p: Panel, bounds: seq<bool>, i: nat, before: Levered) returns (s: Levered, turn: real)
    requires Shaped(p) && |bounds| == p.n && 0 < i < p.n && before == LeveredAt(p, bounds, i - 1)
    ensures s == LeveredAt(p, bounds, i) && turn == LeveredTurnover(p, bounds, i)
  {
    hide LeveredAt, Scaled, Ret, Distance, LeveredTurnover, Earned, Drift;
    LeveredNext(p, bounds, i);
    var x := before.notional;
    turn := 0.0;
    if bounds[i] {
      turn := BoundaryTurnover(p.w, before);
      x := Scaled(p.w, before.nav);
    }
    var dpnl;
    dpnl, x := DriftLegs(p, x, i);
    s := Levered(before.nav + dpnl, x);
  }

  /** The values of bar i, as one column of a table of legs. */
  method RecordLegs(v: seq<real>, i: nat, legs: array2<real>)
    requires |v| == legs.Length0 && i < legs.Length1
    modifies legs
    ensures forall l :: 0 <= l < |v| ==> legs[l, i] == v[l]
    ensures forall l, j :: 0 <= l < |v| && 0 <= j < legs.Length1 && j != i ==> legs[l, j] == old(legs[l, j])
  {
    for l := 0 to |v|
      invariant forall m :: 0 <= m < l ==> legs[m, i] == v[m]
      invariant forall m, j :: 0 <= m < |v| && 0 <= j < legs.Length1 && j != i ==> legs[m, j] == old(legs[m, j])
    {
      legs[l, i] := v[l];
    }
  }

  method GrossWeight(w: seq<real>) returns (gross: real)
    ensures gross == Sum(Gross(w), |w|)
  {
    hide AbsReal;
    gross := 0.0;
    for l := 0 to |w|
      invariant gross == Sum(Gross(w), l)
    {
      gross := gross + AbsReal(w[l]);
    }
  }

  lemma LeveredStart(p: Panel, bounds: seq<bool>)
    requires Shaped(p) && |bounds| == p.n
    ensures LeveredAt(p, bounds, 0) == Levered(100.0, Scaled(p.w, 100.0))
    ensures LeveredTurnover(p, bounds, 0) == Sum(Gross(p.w), |p.w|)
  {}

  lemma LeveredNext(p: Panel, bounds: seq<bool>, i: nat)
    requires Shaped(p) && |bounds| == p.n && 0 < i < p.n
    ensures var x := Reset(p, LeveredAt(p, bounds, i - 1), bounds[i]);
            LeveredAt(p, bounds, i) ==
            Levered(LeveredAt(p, bounds, i - 1).nav + Earned(p, x, i, |p.w|), Drift(p, x, i))
    ensures var s := LeveredAt(p, bounds, i - 1);
            LeveredTurnover(p, bounds, i) == if bounds[i] && s.nav > 0.0 then Distance(p.w, s, |p.w|) else 0.0
  {}

  /** Book every leg's P&L on its start-of-bar notional, then drift it. */
  method DriftLegs(p: Panel, x: seq<real>, i: nat) returns (dpnl: real, y: seq<real>)
    requires Shaped(p) && i < p.n && |x| == |p.w|
    ensures dpnl == Earned(p, x, i, |p.w|) && y == Drift(p, x, i)
  {
    hide Gain, Moved;
    dpnl, y := 0.0, x;
    for l := 0 to |p.w|
      invariant |y| == |x| && dpnl == Earned(p, x, i, l)
      invariant forall m :: 0 <= m < |x| ==> y[m] == if m < l then Moved(x[m], Ret(p, m, i)) else x[m]
    {
      HeldFlat(y[l]);
      if p.rets[l][i].Some? {
        var r := p.rets[l][i].value;
        dpnl := dpnl + Gain(y[l], r);
        y := y[l := Moved(y[l], r)];
      }
    }
  }

  lemma GainScales(c: real, a: real, b: real, r: real)
    ensures c * a + Gain(b * c, r) == c * (a + Gain(b, r))
  {
    assert (b * c) * r == c * (b * r);
  }

  lemma {:induction false} EarnedScales(p: Panel, x: seq<real>, c: real, i: nat, k: nat)
    requires Shaped(p) && i < p.n && k <= |x| == |p.w|
    ensures Earned(p, Scaled(x, c), i, k) == c * Earned(p, x, i, k)
  {
    if k > 0 {
      EarnedScales(p, x, c, i, k - 1);
      GainScales(c, Earned(p, x, i, k - 1), x[k - 1], Ret(p, k - 1, i));
    }
  }

  lemma {:induction false} DriftSum(p: Panel, x: seq<real>, i: nat, k: nat)
    requires Shaped(p) && i < p.n && k <= |x| == |p.w|
    ensures Sum(Drift(p, x, i), k) == Sum(x, k) + Earned(p, x, i, k)
  {
    if k > 0 {
      DriftSum(p, x, i, k - 1);
    }
  }

  /** With a boundary at every bar the raw-weight kernel is the daily one. */
  lemma {:induction false} LeveredEveryBar(p: Panel, bounds: seq<bool>, i: nat)
    requires Shaped(p) && |bounds| == p.n && i < p.n
    requires forall j :: 1 <= j <= i ==> bounds[j]
    ensures LeveredAt(p, bounds, i).nav == Daily(p, i)
  {
    hide Moved, Earned, Drift, Scaled;
    if i > 0 {
      LeveredEveryBar(p, bounds, i - 1);
      EarnedScales(p, p.w, LeveredAt(p, bounds, i - 1).nav, i, |p.w|);
      MovedBy(LeveredAt(p, bounds, i - 1).nav, Earned(p, p.w, i, |p.w|));
    }
  }

  lemma MovedBy(x: real, r: real)
    ensures Moved(x, r) == x + x * r == x + r * x
  {}

  /** What is not in the legs does not move between boundaries. */
  lemma LeveredCash(p: Panel, bounds: seq<bool>, i: nat)
    requires Shaped(p) && |bounds| == p.n && 0 < i < p.n && !bounds[i]
    ensures var s, s' := LeveredAt(p, bounds, i - 1), LeveredAt(p, bounds, i);
            s'.nav - Sum(s'.notional, |p.w|) == s.nav - Sum(s.notional, |p.w|)
  {
    hide LeveredAt, Earned, Sum, Drift;
    LeveredNext(p, bounds, i);
    DriftSum(p, LeveredAt(p, bounds, i - 1).notional, i, |p.w|);
  }

  /** A boundary itself leaves the NAV alone: the bar earns on the restored weights. */
  lemma LeveredBoundary(p: Panel, bounds: seq<bool>, i: nat)
    requires Shaped(p) && |bounds| == p.n && 0 < i < p.n && bounds[i]
    ensures var s, s' := LeveredAt(p, bounds, i - 1), LeveredAt(p, bounds, i);
            s'.nav == Moved(s.nav, Earned(p, p.w, i, |p.w|))
  {
    hide LeveredAt, Earned, Scaled, Drift, Moved;
    LeveredNext(p, bounds, i);
    EarnedScales(p, p.w, LeveredAt(p, bounds, i - 1).nav, i, |p.w|);
    MovedBy(LeveredAt(p, bounds, i - 1).nav, Earned(p, p.w, i, |p.w|));
  }

  lemma MovedNegative(x: real, r: real)
    ensures Moved(-x, r) == -Moved(x, r)
  {}

  lemma {:induction false} LeveredLeg(p: Panel, bounds: seq<bool>, l: nat, i: nat)
    requires Shaped(p) && |bounds| == p.n && i < p.n && l < |p.w|
    requires forall j :: 1 <= j <= i ==> !bounds[j]
    ensures var x := LeveredAt(p, bounds, i).notional[l];
            LegValue(p, l, i) == x + AbsReal(p.w[l]) * 100.0 - p.w[l] * 100.0
  {
    GrownNotional(p, bounds, l, i);
  }

  lemma {:induction false} GrownNotional(p: Panel, bounds: seq<bool>, l: nat, i: nat)
    requires Shaped(p) && |bounds| == p.n && i < p.n && l < |p.w|
    requires forall j :: 1 <= j <= i ==> !bounds[j]
    ensures Grown(p, l, AbsReal(p.w[l]) * 100.0, i) ==
            (if p.w[l] < 0.0 then -LeveredAt(p, bounds, i).notional[l] else LeveredAt(p, bounds, i).notional[l])
  {
    hide Moved, Earned;
    if i > 0 {
      GrownNotional(p, bounds, l, i - 1);
      MovedNegative(LeveredAt(p, bounds, i - 1).notional[l], Ret(p, l, i));
    } else {
      assert LeveredAt(p, bounds, 0).notional[l] == p.w[l] * 100.0;
    }
  }

  lemma {:induction false} HoldTotalNotional(p: Panel, bounds: seq<bool>, i: nat, k: nat)
    requires Shaped(p) && |bounds| == p.n && i < p.n && k <= |p.w|
    requires forall j :: 1 <= j <= i ==> !bounds[j]
    ensures HoldTotal(p, i, k) ==
            Sum(LeveredAt(p, bounds, i).notional, k) + Sum(Gross(p.w), k) * 100.0 - Sum(p.w, k) * 100.0
  {
    hide LeveredAt, LegValue;
    if k > 0 {
      HoldTotalNotional(p, bounds, i, k - 1);
      LeveredLeg(p, bounds, k - 1, i);
    }
  }

  lemma {:induction false} LeveredCashKept(p: Panel, bounds: seq<bool>, i: nat)
    requires Shaped(p) && |bounds| == p.n && i < p.n
    requires forall j :: 1 <= j <= i ==> !bounds[j]
    ensures var s := LeveredAt(p, bounds, i);
            s.nav - Sum(s.notional, |p.w|) == 100.0 - Sum(p.w, |p.w|) * 100.0
  {
    hide LeveredAt, Sum, Scaled;
    if i == 0 {
      LeveredStart(p, bounds);
      ScaledSum(p.w, 100.0, |p.w|);
    } else {
      LeveredCashKept(p, bounds, i - 1);
      LeveredCash(p, bounds, i);
    }
  }

  lemma {:induction false} ScaledSum(x: seq<real>, c: real, k: nat)
    requires k <= |x|
    ensures Sum(Scaled(x, c), k) == Sum(x, k) * c
  {
    if k > 0 {
      ScaledSum(x, c, k - 1);
    }
  }

  /** Without a boundary the raw-weight kernel is buy-and-hold, long or short. */
  lemma LeveredNoBoundary(p: Panel, bounds: seq<bool>, i: nat)
    requires Shaped(p) && |bounds| == p.n && i < p.n
    requires forall j :: 1 <= j <= i ==> !bounds[j]
    ensures LeveredAt(p, bounds, i).nav == BuyAndHold(p, i, false)
  {
    hide LeveredAt, HoldTotal;
    LeveredCashKept(p, bounds, i);
    HoldTotalNotional(p, bounds, i, |p.w|);
  }
}
