/** Turnover of held legs and of rebalanced weights, and the costs charged on it. */
module Costs {
  import opened Wrappers
  import opened HoldPnl
  import opened HoldProofs

  // ----- Held legs ---------------------------------------------------------

  /** The notional held at bar b, with nothing before bar 0. */
  function Before(q: seq<real>, b: nat): real
    requires b <= |q|
  {
    if b == 0 then 0.0 else q[b - 1]
  }

  function Change(q: seq<real>, b: nat): real
    requires b < |q|
  {
    AbsReal(q[b] - Before(q, b))
  }

  /** A roll the leg is held across, after bar 0. */
  predicate Survives(rolls: seq<bool>, active: seq<bool>, b: nat)
    requires b < |rolls| == |active|
  {
    b >= 1 && rolls[b] && active[b] && active[b - 1]
  }

  /** The constant notional of a leg billed at |nav_times|. */
  function Held(active: seq<bool>, mag: real): (q: seq<real>)
    ensures |q| == |active| && forall b :: 0 <= b < |q| ==> q[b] == if active[b] then mag else 0.0
  {
    seq(|active|, b requires 0 <= b < |active| => if active[b] then mag else 0.0)
  }

  function ScalarTurnover(rolls: seq<bool>, active: seq<bool>, mag: real, b: nat): real
    requires b < |rolls| == |active|
  {
    Change(Held(active, mag), b) + if Survives(rolls, active, b) then 2.0 * mag else 0.0
  }

  /** A survived roll is lifted from the net change to a full close and reopen. */
  function SegmentTurnover(rolls: seq<bool>, active: seq<bool>, frac: seq<real>, b: nat): real
    requires b < |rolls| == |active| == |frac|
  {
    Change(frac, b) +
    if Survives(rolls, active, b) then frac[b] + frac[b - 1] - AbsReal(frac[b] - frac[b - 1]) else 0.0
  }

  method HoldLegTurnover(rolls: seq<bool>, active: seq<bool>, navTimes: real, n: int, frac: Option<seq<real>>)
    returns (turnover: array<real>)
    requires n > 0 ==> |rolls| == |active| == n + 1 && (frac.Some? ==> |frac.value| == n + 1)
    ensures turnover.Length == MaxInt(n, 0)
    ensures frac.None? ==>
              forall b :: 0 <= b < n ==> turnover[b] == ScalarTurnover(rolls, active, AbsReal(navTimes), b)
    ensures frac.Some? ==>
              forall b :: 0 <= b < n ==> turnover[b] == SegmentTurnover(rolls, active, frac.value, b)
  {
    if n <= 0 {
      turnover := new real[0];
      return;
    }
    turnover := new real[n];
    var mag := AbsReal(navTimes);
    var q := if frac.None? then Held(active, mag) else frac.value;
    for b := 0 to n
      invariant forall u :: 0 <= u < b ==> turnover[u] == Change(q, u)
    {
      turnover[b] := AbsReal(q[b] - if b == 0 then 0.0 else q[b - 1]);
    }
    for b := 0 to n
      invariant forall u :: b <= u < n ==> turnover[u] == Change(q, u)
      invariant forall u :: 0 <= u < b ==>
                  turnover[u] == if frac.None? then ScalarTurnover(rolls, active, mag, u)
                                 else SegmentTurnover(rolls, active, frac.value, u)
    {
      if rolls[b] && 1 <= b && active[b] && active[b - 1] {
        turnover[b] := turnover[b] + if frac.None? then 2.0 * mag
                                     else frac.value[b] + frac.value[b - 1] - AbsReal(frac.value[b] - frac.value[b - 1]);
      }
    }
  }

  /** Fed |nav_times| while active and 0 otherwise, the per-segment billing is the
      scalar one. */
  lemma SegmentIsScalar(rolls: seq<bool>, active: seq<bool>, mag: real, b: nat)
    requires b < |rolls| == |active| && mag >= 0.0
    ensures SegmentTurnover(rolls, active, Held(active, mag), b) == ScalarTurnover(rolls, active, mag, b)
  {}

  /** A roll the leg is held across is billed a full close of the old quantity and a
      full open of the new one, whether or not they differ; any other bar is billed
      the change of what is held. */
  lemma RollBillsBothSides(rolls: seq<bool>, active: seq<bool>, frac: seq<real>, b: nat)
    requires b < |rolls| == |active| == |frac| && forall u :: 0 <= u < |frac| ==> frac[u] >= 0.0
    ensures b >= 1 && rolls[b] && active[b] && active[b - 1] ==>
              SegmentTurnover(rolls, active, frac, b) == frac[b - 1] + frac[b]
    ensures b >= 1 && !(rolls[b] && active[b] && active[b - 1]) ==>
              var turn := SegmentTurnover(rolls, active, frac, b);
              turn >= 0.0 && (frac[b - 1] + turn == frac[b] || frac[b] + turn == frac[b - 1])
    ensures b == 0 ==> SegmentTurnover(rolls, active, frac, b) == frac[0]
  {}

  // ----- What a lifetime costs ---------------------------------------------

  /** The number of bars b < n with p[b]. */
  function Count(p: seq<bool>, n: nat): nat
    requires n <= |p|
  {
    if n == 0 then 0 else Count(p, n - 1) + if p[n - 1] then 1 else 0
  }

  function Opens(active: seq<bool>): (p: seq<bool>)
    ensures |p| == |active|
  {
    seq(|active|, b requires 0 <= b < |active| => active[b] && (b == 0 || !active[b - 1]))
  }

  function Closes(active: seq<bool>): (p: seq<bool>)
    ensures |p| == |active|
  {
    seq(|active|, b requires 0 <= b < |active| => b >= 1 && !active[b] && active[b - 1])
  }

  function Survived(rolls: seq<bool>, active: seq<bool>): (p: seq<bool>)
    requires |rolls| == |active|
    ensures |p| == |active|
  {
    seq(|active|, b requires 0 <= b < |active| => Survives(rolls, active, b))
  }

  function ScalarTotal(rolls: seq<bool>, active: seq<bool>, mag: real, n: nat): real
    requires n <= |rolls| == |active|
  {
    if n == 0 then 0.0
    else ScalarTotal(rolls, active, mag, n - 1) + ScalarTurnover(rolls, active, mag, n - 1)
  }

  /** The sides traded at bar b: one for an open or a close, two for a roll. */
  function SidesAt(rolls: seq<bool>, active: seq<bool>, b: nat): nat
    requires b < |rolls| == |active|
  {
    (if Opens(active)[b] then 1 else 0) + (if Closes(active)[b] then 1 else 0)
    + (if Survived(rolls, active)[b] then 2 else 0)
  }

  function Sides(rolls: seq<bool>, active: seq<bool>, n: nat): nat
    requires n <= |rolls| == |active|
  {
    if n == 0 then 0 else Sides(rolls, active, n - 1) + SidesAt(rolls, active, n - 1)
  }

  lemma {:induction false} SidesCounted(rolls: seq<bool>, active: seq<bool>, n: nat)
    requires n <= |rolls| == |active|
    ensures Sides(rolls, active, n) ==
            Count(Opens(active), n) + Count(Closes(active), n) + 2 * Count(Survived(rolls, active), n)
  {
    hide Opens, Closes, Survived;
    if n > 0 {
      SidesCounted(rolls, active, n - 1);
    }
  }

  lemma SidesBilled(rolls: seq<bool>, active: seq<bool>, mag: real, b: nat)
    requires b < |rolls| == |active| && mag >= 0.0
    ensures ScalarTurnover(rolls, active, mag, b) == mag * (SidesAt(rolls, active, b) as real)
  {}

  lemma AddSides(mag: real, k: int, d: int)
    ensures mag * ((k + d) as real) == mag * (k as real) + mag * (d as real)
  {
    assert (k + d) as real == k as real + d as real;
  }

  lemma {:induction false} SidesTotal(rolls: seq<bool>, active: seq<bool>, mag: real, n: nat)
    requires n <= |rolls| == |active| && mag >= 0.0
    ensures ScalarTotal(rolls, active, mag, n) == mag * (Sides(rolls, active, n) as real)
  {
    hide SidesAt, ScalarTurnover;
    if n > 0 {
      SidesTotal(rolls, active, mag, n - 1);
      SidesBilled(rolls, active, mag, n - 1);
      AddSides(mag, Sides(rolls, active, n - 1), SidesAt(rolls, active, n - 1));
    }
  }

  /** A leg's lifetime turnover: one side per open, one per close, two per survived
      roll, over the bars held into a step. */
  lemma LifetimeTurnover(rolls: seq<bool>, active: seq<bool>, mag: real, n: nat)
    requires n <= |rolls| == |active| && mag >= 0.0
    ensures ScalarTotal(rolls, active, mag, n) ==
            mag * ((Count(Opens(active), n) + Count(Closes(active), n)
                    + 2 * Count(Survived(rolls, active), n)) as real)
  {
    hide ScalarTotal, Count, Opens, Closes, Survived;
    SidesTotal(rolls, active, mag, n);
    SidesCounted(rolls, active, n);
  }

  // ----- Rebalanced weights ------------------------------------------------

  /** A return that is not finite is held flat. */
  function Flat(r: Num): real {
    if r.Some? then r.value else 0.0
  }

  /** What a weight becomes when its leg returns r and the whole returns net. */
  function Shifted(w: real, r: real, net: real): real
    requires 1.0 + net != 0.0
  {
    w * (1.0 + r) / (1.0 + net)
  }

  /** The weight leg k has drifted to by bar s, before it is rebalanced; none after
      a step that leaves nothing or is not finite. */
  function Drifted(prev: real, r: Num, net: Num): real {
    if net.None? || 1.0 + net.value == 0.0 then 0.0 else Shifted(prev, Flat(r), net.value)
  }

  /** The turnover that establishes the weights of bar s, over the first k legs. */
  function Establish(pos: seq<seq<real>>, rets: seq<seq<Num>>, net: seq<Num>, s: nat, k: nat): real
    requires s < |pos| == |rets| == |net| + 1
    requires k <= |pos[s]| && (s > 0 ==> k <= |pos[s - 1]|) && k <= |rets[s]|
  {
    if k == 0 then 0.0
    else Establish(pos, rets, net, s, k - 1) +
         if s == 0 then AbsReal(pos[0][k - 1])
         else AbsReal(pos[s][k - 1] - Drifted(pos[s - 1][k - 1], rets[s][k - 1], net[s - 1]))
  }

  /** What it takes to establish the weights from nothing. */
  function FromNothing(w: seq<real>, k: nat): real
    requires k <= |w|
  {
    if k == 0 then 0.0 else FromNothing(w, k - 1) + AbsReal(w[k - 1])
  }

  /** The first bar, and a bar after a step that left nothing or is not finite, is
      billed the whole of its weights. */
  lemma {:induction false} EstablishedAnew(pos: seq<seq<real>>, rets: seq<seq<Num>>, net: seq<Num>, s: nat, k: nat)
    requires s < |pos| == |rets| == |net| + 1
    requires k <= |pos[s]| && (s > 0 ==> k <= |pos[s - 1]|) && k <= |rets[s]|
    requires s > 0 ==> net[s - 1].None? || net[s - 1].value == -1.0
    ensures Establish(pos, rets, net, s, k) == FromNothing(pos[s], k)
  {
    if k > 0 {
      EstablishedAnew(pos, rets, net, s, k - 1);
    }
  }

  /** What a leg that is worth v is worth after a return; no return leaves it. */
  function Grown(v: real, r: Num): real {
    if r.Some? then v + v * r.value else v
  }

  /** How far a weight w of a whole that is worth `whole` is from x. */
  function Off(w: real, whole: real, x: real): real {
    AbsReal(w * whole - x)
  }

  /** How far legs that started the step at v, and moved by their own returns, are
      from the weights w of a whole that has become `whole`. */
  function Restored(w: seq<real>, v: seq<real>, rets: seq<Num>, whole: real, k: nat): real
    requires k <= |w| && k <= |v| && k <= |rets|
  {
    if k == 0 then 0.0
    else Restored(w, v, rets, whole, k - 1) + Off(w[k - 1], whole, Grown(v[k - 1], rets[k - 1]))
  }

  lemma DriftInUnits(w: real, v: real, r: Num, net: real, sum: real, whole: real)
    requires whole == 1.0 + net && whole != 0.0
    ensures (sum + AbsReal(w - Drifted(v, r, Some(net)))) * AbsReal(whole) ==
            sum * AbsReal(whole) + Off(w, whole, Grown(v, r))
  {
    hide AbsReal, Shifted, Grown;
    ShiftedIs(v, r, net, whole);
    var x := Shifted(v, Flat(r), net);
    Spread(sum, w - x, whole);
    assert (w - x) * whole == w * whole - Grown(v, r) by { Difference(w, x, whole); }
  }

  lemma ShiftedIs(v: real, r: Num, net: real, whole: real)
    requires whole == 1.0 + net && whole != 0.0
    ensures Shifted(v, Flat(r), net) * whole == Grown(v, r)
  {
    assert v * (1.0 + Flat(r)) == Grown(v, r);
  }

  lemma Difference(w: real, x: real, k: real)
    ensures (w - x) * k == w * k - x * k
  {}

  lemma Spread(sum: real, d: real, whole: real)
    ensures (sum + AbsReal(d)) * AbsReal(whole) == sum * AbsReal(whole) + AbsReal(d * whole)
  {
    AbsTimes(d, whole);
  }

  /** Any other bar is billed what is traded: turnover times what the whole has
      become is the distance from the legs as they have moved to the new weights of
      that whole. */
  lemma {:induction false} EstablishTrades(pos: seq<seq<real>>, rets: seq<seq<Num>>, net: seq<Num>, s: nat, whole: real, k: nat)
    requires 0 < s < |pos| == |rets| == |net| + 1
    requires k <= |pos[s]| && k <= |pos[s - 1]| && k <= |rets[s]|
    requires net[s - 1].Some? && whole == 1.0 + net[s - 1].value && whole != 0.0
    ensures Establish(pos, rets, net, s, k) * AbsReal(whole) == Restored(pos[s], pos[s - 1], rets[s], whole, k)
  {
    hide AbsReal, Drifted, Grown, Off;
    if k > 0 {
      EstablishTrades(pos, rets, net, s, whole, k - 1);
      DriftInUnits(pos[s][k - 1], pos[s - 1][k - 1], rets[s][k - 1], net[s - 1].value,
                   Establish(pos, rets, net, s, k - 1), whole);
    }
  }

  predicate Grid<X>(rows: seq<seq<X>>, K: nat) {
    forall s :: 0 <= s < |rows| ==> |rows[s]| == K
  }

  /** None stands for the index error that a single bar runs into. */
  method EstablishTurnover(pos: seq<seq<real>>, rets: seq<seq<Num>>, net: seq<Num>, K: nat)
    returns (turnover: Option<array<real>>)
    requires |pos| == |rets| && Grid(pos, K) && Grid(rets, K) && (|pos| > 0 ==> |net| == |pos| - 1)
    ensures turnover.None? <==> |pos| == 1
    ensures |pos| == 0 ==> turnover.value.Length == 0
    ensures |pos| >= 2 ==>
              && turnover.value.Length == |pos| - 1
              && forall s :: 0 <= s < |net| ==> turnover.value[s] == Establish(pos, rets, net, s, K)
  {
    if |pos| == 0 {
      var none := new real[0];
      return Some(none);
    }
    if |net| == 0 {
      return None;
    }
    var out := new real[|net|];
    for s := 0 to |net|
      invariant forall u :: 0 <= u < s ==> out[u] == Establish(pos, rets, net, u, K)
    {
      var sum := 0.0;
      for k := 0 to K
        invariant sum == Establish(pos, rets, net, s, k)
      {
        sum := sum + if s == 0 then AbsReal(pos[0][k])
                     else AbsReal(pos[s][k] - Drifted(pos[s - 1][k], rets[s][k], net[s - 1]));
      }
      out[s] := sum;
    }
    turnover := Some(out);
  }

  /** Without rolls a held leg is billed as that weight would be, under returns of
      zero or none. */
  lemma HeldIsEstablished(active: seq<bool>, mag: real, rets: seq<seq<Num>>, s: nat)
    requires s + 1 < |active| == |rets| && mag >= 0.0 && Grid(rets, 1)
    requires forall u :: 0 <= u < |rets| ==> rets[u][0].None? || rets[u][0].value == 0.0
    ensures var pos := seq(|active|, b requires 0 <= b < |active| => [Held(active, mag)[b]]);
            var net := seq(|active| - 1, _ => Some(0.0));
            Establish(pos, rets, net, s, 1) ==
            ScalarTurnover(seq(|active|, _ => false), active, mag, s)
  {
    var pos := seq(|active|, b requires 0 <= b < |active| => [Held(active, mag)[b]]);
    var net := seq(|active| - 1, _ => Some(0.0));
    assert Establish(pos, rets, net, s, 0) == 0.0;
    if s > 0 {
      var prev := pos[s - 1][0];
      assert Drifted(prev, rets[s][0], net[s - 1]) == prev;
    }
  }

  // ----- Charging ----------------------------------------------------------

  datatype CostConfig = CostConfig(slippageBps: real, feesBps: real)

  /** Both drags, and what is left of the drag when there are no rates. */
  method SplitDrag(turnover: seq<real>, cfg: CostConfig) returns (slip: array<real>, fees: array<real>)
    ensures slip.Length == fees.Length == |turnover|
    ensures forall s :: 0 <= s < |turnover| ==>
              10000.0 * slip[s] == cfg.slippageBps * turnover[s] && 10000.0 * fees[s] == cfg.feesBps * turnover[s]
  {
    hide Rated;
    var sr, fr := cfg.slippageBps / 10000.0, cfg.feesBps / 10000.0;
    slip, fees := new real[|turnover|], new real[|turnover|];
    for s := 0 to |turnover|
      invariant forall u :: 0 <= u < s ==> slip[u] == Rated(sr, turnover[u]) && fees[u] == Rated(fr, turnover[u])
    {
      slip[s] := Rated(sr, turnover[s]);
      fees[s] := Rated(fr, turnover[s]);
    }
    forall s | 0 <= s < |turnover|
      ensures 10000.0 * slip[s] == cfg.slippageBps * turnover[s] && 10000.0 * fees[s] == cfg.feesBps * turnover[s]
    {
      BasisPoints(cfg.slippageBps, turnover[s]);
      BasisPoints(cfg.feesBps, turnover[s]);
    }
  }

  function Rated(rate: real, turnover: real): real {
    rate * turnover
  }

  lemma BasisPoints(bps: real, turnover: real)
    ensures 10000.0 * Rated(bps / 10000.0, turnover) == bps * turnover
  {
    var rate := bps / 10000.0;
    assert rate * 10000.0 == bps;
    assert 10000.0 * (rate * turnover) == (rate * 10000.0) * turnover;
  }

  /** What one step costs; a step whose drag or equity is not finite costs nothing. */
  function StepCost(drag: Num, ratio: Num): real {
    if drag.Some? && ratio.Some? then drag.value * ratio.value else 0.0
  }

  /** The cost of steps 0..t as a fraction of the initial capital, on full equity. */
  function Charged(drag: seq<Num>, ratio: seq<Num>, t: nat): real
    requires t <= |drag| && t <= |ratio|
  {
    if t == 0 then 0.0 else Charged(drag, ratio, t - 1) + StepCost(drag[t - 1], ratio[t - 1])
  }

  method CumulativeCostPct(drag: seq<Num>, ratio: seq<Num>) returns (pct: real)
    requires |drag| == |ratio|
    ensures pct == 100.0 * Charged(drag, ratio, |drag|)
  {
    var sum := 0.0;
    for s := 0 to |drag|
      invariant sum == Charged(drag, ratio, s)
    {
      if drag[s].Some? && ratio[s].Some? {
        sum := sum + drag[s].value * ratio[s].value;
      }
    }
    pct := 100.0 * sum;
  }

  function Finite(x: seq<real>): (y: seq<Num>)
    ensures |y| == |x| && forall s :: 0 <= s < |x| ==> y[s] == Some(x[s])
  {
    seq(|x|, s requires 0 <= s < |x| => Some(x[s]))
  }

  /** Step s wipes the account out with a loss beyond its equity, and has a cost. */
  predicate Overcharged(vec: seq<real>, specs: seq<HoldSpec>, drag: seq<real>, s: nat)
    requires AllAligned(specs, |vec|) && s < |vec| == |drag|
  {
    Compound(vec, specs, s).ratio > 0.0 && NetStep(vec, specs, s) < -1.0 && drag[s] > 0.0
  }

  /** A cost y of which the share k is borne. */
  lemma ShareBorne(k: real, y: real)
    requires 0.0 <= k <= 1.0 && y >= 0.0
    ensures k * y <= y && (k * y < y <==> k < 1.0 && y > 0.0)
  {
    assert y - k * y == (1.0 - k) * y;
    if k < 1.0 && y > 0.0 {
      assert (1.0 - k) * y > 0.0;
    }
  }

  lemma PositiveProduct(x: real, y: real)
    requires x >= 0.0 && y >= 0.0
    ensures x * y >= 0.0 && (x * y > 0.0 <==> x > 0.0 && y > 0.0)
  {
    if x > 0.0 && y > 0.0 {
      assert x * y > 0.0;
    } else if x == 0.0 {
      assert x * y == 0.0;
    } else {
      assert x * y == 0.0;
    }
  }

  lemma BorneStep(k: real, r: real, d: real, borne: real, paid: real)
    requires 0.0 <= k <= 1.0 && r >= 0.0 && d >= 0.0 && borne == k * r * d && paid == d * r
    ensures borne <= paid && (borne < paid <==> k < 1.0 && r > 0.0 && d > 0.0)
  {
    assert borne == k * paid;
    PositiveProduct(d, r);
    ShareBorne(k, paid);
  }

  lemma OverchargedStep(wiped: bool, k: real, r: real, net: real, d: real)
    requires r >= 0.0 && d >= 0.0 && (wiped <==> r == 0.0) && k == LossCap(wiped, net)
    ensures k * r * d <= StepCost(Some(d), Some(r))
    ensures k * r * d < StepCost(Some(d), Some(r)) <==> r > 0.0 && net < -1.0 && d > 0.0
  {
    LossCapRange(wiped, net);
    if !wiped {
      LossCapBelowOne(net);
    }
    hide LossCap;
    BorneStep(k, r, d, k * r * d, StepCost(Some(d), Some(r)));
  }

  lemma LossCapBelowOne(net: real)
    ensures LossCap(false, net) < 1.0 <==> net < -1.0
  {
    if net <= -1.0 {
      assert (-1.0 / net) * net == -1.0;
    }
  }

  lemma ReportedStep(vec: seq<real>, specs: seq<HoldSpec>, drag: seq<real>, s: nat)
    requires AllAligned(specs, |vec|) && s < |vec| == |drag| && drag[s] >= 0.0
    ensures var borne, paid := Scales(vec, specs)[s] * Ratios(vec, specs)[s] * drag[s],
                               StepCost(Finite(drag)[s], Finite(Ratios(vec, specs))[s]);
            borne <= paid && (borne < paid <==> Overcharged(vec, specs, drag, s))
  {
    hide Compound, NetStep, LossCap;
    EquityNonNegative(vec, specs, s);
    assert Scales(vec, specs)[s] == LossCap(Compound(vec, specs, s).wiped, NetStep(vec, specs, s));
    assert Ratios(vec, specs)[s] == Compound(vec, specs, s).ratio;
    hide Scale, Scales, StepCost;
    OverchargedStep(Compound(vec, specs, s).wiped, Scales(vec, specs)[s], Ratios(vec, specs)[s],
                    NetStep(vec, specs, s), drag[s]);
  }

  /** The reported cost is never less than the drag that the account bore, and it is
      more exactly when a step with a cost has wiped the account out by losing more
      than all of it: that loss is capped, and the report is not. */
  lemma {:induction false} ReportedCovers(vec: seq<real>, specs: seq<HoldSpec>, drag: seq<real>, t: nat)
    requires AllAligned(specs, |vec|) && |drag| == |vec| && t <= |vec|
    requires forall s :: 0 <= s < |drag| ==> drag[s] >= 0.0
    ensures var borne := Cumulative(Scales(vec, specs), Ratios(vec, specs), drag, t);
            var reported := Charged(Finite(drag), Finite(Ratios(vec, specs)), t);
            && borne <= reported
            && (borne < reported <==> exists s :: 0 <= s < t && Overcharged(vec, specs, drag, s))
  {
    hide Scales, Ratios, StepCost, Overcharged;
    if t > 0 {
      ReportedCovers(vec, specs, drag, t - 1);
      ReportedStep(vec, specs, drag, t - 1);
      assert (exists s :: 0 <= s < t && Overcharged(vec, specs, drag, s)) <==>
             (exists s :: 0 <= s < t - 1 && Overcharged(vec, specs, drag, s)) || Overcharged(vec, specs, drag, t - 1);
    }
  }

  /** Before ruin nothing is over-reported. */
  lemma ReportedBeforeRuin(vec: seq<real>, specs: seq<HoldSpec>, drag: seq<real>, t: nat)
    requires AllAligned(specs, |vec|) && |drag| == |vec| && t <= |vec| && Compound(vec, specs, t).ratio != 0.0
    requires forall s :: 0 <= s < |drag| ==> drag[s] >= 0.0
    ensures Cumulative(Scales(vec, specs), Ratios(vec, specs), drag, t) ==
            Charged(Finite(drag), Finite(Ratios(vec, specs)), t)
  {
    hide Compound, NetStep, Scales, Ratios, Cumulative, Charged;
    ReportedCovers(vec, specs, drag, t);
    forall s | 0 <= s < t ensures !Overcharged(vec, specs, drag, s) {
      if Overcharged(vec, specs, drag, s) {
        CompoundStep(vec, specs, s);
        EquityNonNegative(vec, specs, s);
        RuinAbsorbs(vec, specs, s + 1, t);
      }
    }
  }
}
