/** What the compounding keeps: absorbing ruin, bounded loss caps, and the
    reconciliation of the per-input contributions. */
module HoldProofs {
  import opened Wrappers
  import opened HoldPnl

  // ----- Ruin --------------------------------------------------------------

  /** Equity never goes negative, and it is 0 exactly when wiped. */
  lemma {:induction false} EquityNonNegative(vec: seq<real>, specs: seq<HoldSpec>, t: nat)
    requires AllAligned(specs, |vec|) && t <= |vec|
    ensures var a := Compound(vec, specs, t); a.ratio >= 0.0 && (a.wiped <==> a.ratio == 0.0)
  {
    hide Compound, NetStep, Grow, LossCap;
    if t == 0 {
      CompoundStart(vec, specs);
    } else {
      EquityNonNegative(vec, specs, t - 1);
      CompoundStep(vec, specs, t - 1);
      if !Compound(vec, specs, t - 1).wiped {
        GrowSign(Compound(vec, specs, t - 1).ratio, NetStep(vec, specs, t - 1));
      }
    }
  }

  lemma GrowSign(r: real, net: real)
    requires r > 0.0
    ensures Grow(r, net) >= 0.0 && (Grow(r, net) == 0.0 <==> 1.0 + net <= 0.0)
  {
    var f := 1.0 + net;
    if f > 0.0 {
      assert r * f > 0.0;
    }
  }

  /** Once equity is 0 it stays exactly 0. */
  lemma {:induction false} RuinAbsorbs(vec: seq<real>, specs: seq<HoldSpec>, t: nat, u: nat)
    requires AllAligned(specs, |vec|) && t <= u <= |vec| && Compound(vec, specs, t).ratio == 0.0
    ensures Compound(vec, specs, u).ratio == 0.0
  {
    hide Compound;
    if t < u {
      RuinAbsorbs(vec, specs, t, u - 1);
      EquityNonNegative(vec, specs, u - 1);
      CompoundStep(vec, specs, u - 1);
    }
  }

  lemma NotRuined(vec: seq<real>, specs: seq<HoldSpec>, t: nat, u: nat)
    requires AllAligned(specs, |vec|) && t <= u <= |vec| && Compound(vec, specs, u).ratio != 0.0
    ensures Compound(vec, specs, t).ratio != 0.0
  {
    hide Compound;
    if Compound(vec, specs, t).ratio == 0.0 {
      RuinAbsorbs(vec, specs, t, u);
    }
  }

  lemma LegAfter(vec: seq<real>, specs: seq<HoldSpec>, i: nat, s: nat)
    requires AllAligned(specs, |vec|) && i < |specs| && s < |vec| && Compound(vec, specs, s).ratio != 0.0
    ensures var a, a' := Compound(vec, specs, s), Compound(vec, specs, s + 1);
            a'.legs[i] == Resize(specs[i], Book(specs[i], a.legs[i], s, a.ratio).1, s + 1, a'.ratio)
  {
    hide Compound, Book, Resize, Net, NetStep, Scale, HoldContrib, Grow, LossCap;
    EquityNonNegative(vec, specs, s);
    CompoundStep(vec, specs, s);
  }

  /** Booking leaves the sizing alone. */
  lemma BookKeeps(sp: HoldSpec, l: Leg, s: nat, ratio: real)
    requires Aligned(sp, |sp.premium|) && s + 1 < |sp.premium| && LegOk(sp, l)
    ensures var l' := Book(sp, l, s, ratio).1;
            l'.holding == l.holding && l'.segEr == l.segEr && l'.segPremium == l.segPremium && l'.segFref == l.segFref
  {
    hide OptionContrib, OptionQty, HedgeStepContrib, Capture;
  }

  lemma LossCapRange(wiped: bool, net: real)
    ensures 0.0 <= LossCap(wiped, net) <= 1.0
  {
    if !wiped && 1.0 + net <= 0.0 {
      assert (-1.0 / net) * net == -1.0;
    }
  }

  /** The step scale is a fraction. */
  lemma ScaleRange(vec: seq<real>, specs: seq<HoldSpec>, s: nat)
    requires AllAligned(specs, |vec|) && s < |vec|
    ensures 0.0 <= Scale(vec, specs, s) <= 1.0
  {
    LossCapRange(Compound(vec, specs, s).wiped, NetStep(vec, specs, s));
  }

  // ----- Reconciliation ----------------------------------------------------

  /** An equity curve and the share of each step's netted return it bears. */
  ghost predicate Bears(net: seq<real>, ratio: seq<real>, scale: seq<real>) {
    && |ratio| == |net| + 1 && |scale| == |net| && ratio[0] == 1.0
    && forall s :: 0 <= s < |net| ==> ratio[s + 1] == ratio[s] + scale[s] * ratio[s] * net[s]
  }

  /** The cumulative contribution of one input up to bar t. */
  function Cumulative(scale: seq<real>, ratio: seq<real>, contrib: seq<real>, t: nat): real
    requires t <= |scale| && t <= |ratio| && t <= |contrib|
  {
    if t == 0 then 0.0
    else Cumulative(scale, ratio, contrib, t - 1) + scale[t - 1] * ratio[t - 1] * contrib[t - 1]
  }

  /** The per-input running sum. */
  method RealizedPnl(scale: seq<real>, ratio: seq<real>, contrib: seq<real>) returns (pnl: array<real>)
    requires |scale| == |contrib| && |ratio| == |scale| + 1
    ensures pnl.Length == |ratio|
    ensures forall t :: 0 <= t < |ratio| ==> pnl[t] == Cumulative(scale, ratio, contrib, t)
  {
    pnl := new real[|ratio|];
    pnl[0] := 0.0;
    for s := 0 to |scale|
      invariant forall t :: 0 <= t <= s ==> pnl[t] == Cumulative(scale, ratio, contrib, t)
    {
      pnl[s + 1] := pnl[s] + scale[s] * ratio[s] * contrib[s];
    }
  }

  predicate Rectangular(rows: seq<seq<real>>, n: nat) {
    forall i :: 0 <= i < |rows| ==> |rows[i]| == n
  }

  /** The summed contributions of all inputs up to bar t. */
  function Total(scale: seq<real>, ratio: seq<real>, rows: seq<seq<real>>, t: nat): real
    requires Rectangular(rows, |scale|) && t <= |scale| && t <= |ratio|
  {
    if rows == [] then 0.0
    else Total(scale, ratio, rows[..|rows| - 1], t) + Cumulative(scale, ratio, rows[|rows| - 1], t)
  }

  function Column(rows: seq<seq<real>>, n: nat, s: nat): real
    requires Rectangular(rows, n) && s < n
  {
    if rows == [] then 0.0 else Column(rows[..|rows| - 1], n, s) + rows[|rows| - 1][s]
  }

  lemma {:induction false} TotalStep(scale: seq<real>, ratio: seq<real>, rows: seq<seq<real>>, t: nat)
    requires Rectangular(rows, |scale|) && t < |scale| && t < |ratio|
    ensures Total(scale, ratio, rows, t + 1) ==
            Total(scale, ratio, rows, t) + scale[t] * ratio[t] * Column(rows, |scale|, t)
  {
    if rows != [] {
      TotalStep(scale, ratio, rows[..|rows| - 1], t);
      var x, y, k := Column(rows[..|rows| - 1], |scale|, t), rows[|rows| - 1][t], scale[t] * ratio[t];
      assert k * (x + y) == k * x + k * y;
    }
  }

  lemma {:induction false} TotalStart(scale: seq<real>, ratio: seq<real>, rows: seq<seq<real>>)
    requires Rectangular(rows, |scale|)
    ensures Total(scale, ratio, rows, 0) == 0.0
  {
    if rows != [] {
      TotalStart(scale, ratio, rows[..|rows| - 1]);
    }
  }

  /** Contributions that net to the steps, before a cost drag, add up to the equity
      change plus the drag borne. */
  lemma {:induction false} Reconciles(net: seq<real>, ratio: seq<real>, scale: seq<real>,
                                      rows: seq<seq<real>>, drag: seq<real>, t: nat)
    requires Bears(net, ratio, scale) && Rectangular(rows, |net|) && |drag| == |net| && t <= |net|
    requires forall s :: 0 <= s < |net| ==> net[s] == Column(rows, |net|, s) - drag[s]
    ensures Total(scale, ratio, rows, t) == ratio[t] - 1.0 + Cumulative(scale, ratio, drag, t)
  {
    hide Total, Column, Cumulative, Bears;
    BearsStart(net, ratio, scale, drag);
    if t == 0 {
      TotalStart(scale, ratio, rows);
    } else {
      var s := t - 1;
      Reconciles(net, ratio, scale, rows, drag, s);
      TotalStep(scale, ratio, rows, s);
      BearsStep(net, ratio, scale, drag, s);
      var k := scale[s] * ratio[s];
      StepReconciles(Total(scale, ratio, rows, s), ratio[s], Cumulative(scale, ratio, drag, s), k,
                     Column(rows, |net|, s), drag[s], net[s]);
    }
  }

  lemma BearsStart(net: seq<real>, ratio: seq<real>, scale: seq<real>, drag: seq<real>)
    requires Bears(net, ratio, scale)
    ensures |ratio| == |net| + 1 && |scale| == |net| && ratio[0] == 1.0 && Cumulative(scale, ratio, drag, 0) == 0.0
  {}

  lemma BearsStep(net: seq<real>, ratio: seq<real>, scale: seq<real>, drag: seq<real>, s: nat)
    requires Bears(net, ratio, scale) && |drag| == |net| && s < |net|
    ensures ratio[s + 1] == ratio[s] + scale[s] * ratio[s] * net[s]
    ensures Cumulative(scale, ratio, drag, s + 1) ==
            Cumulative(scale, ratio, drag, s) + scale[s] * ratio[s] * drag[s]
  {}

  lemma StepReconciles(total: real, r: real, cost: real, k: real, x: real, d: real, net: real)
    requires total == r - 1.0 + cost && net == x - d
    ensures total + k * x == r + k * net - 1.0 + (cost + k * d)
  {
    assert k * (x - d) == k * x - k * d;
  }

  function Ratios(vec: seq<real>, specs: seq<HoldSpec>): seq<real>
    requires AllAligned(specs, |vec|)
  {
    seq(|vec| + 1, t requires 0 <= t <= |vec| => Compound(vec, specs, t).ratio)
  }

  function Scales(vec: seq<real>, specs: seq<HoldSpec>): seq<real>
    requires AllAligned(specs, |vec|)
  {
    seq(|vec|, s requires 0 <= s < |vec| => Scale(vec, specs, s))
  }

  function Nets(vec: seq<real>, specs: seq<HoldSpec>): seq<real>
    requires AllAligned(specs, |vec|)
  {
    seq(|vec|, s requires 0 <= s < |vec| => NetStep(vec, specs, s))
  }

  /** What the hold legs booked, one row per leg. */
  function HoldRows(vec: seq<real>, specs: seq<HoldSpec>): (r: seq<seq<real>>)
    requires AllAligned(specs, |vec|)
    ensures Rectangular(r, |vec|)
  {
    seq(|specs|, i requires 0 <= i < |specs| =>
      seq(|vec|, s requires 0 <= s < |vec| => HoldContrib(vec, specs, i, s)))
  }

  /** Growth and the loss cap agree on every step, the wiping one included. */
  lemma GrowthBorne(r: real, net: real)
    requires r >= 0.0
    ensures Grow(r, net) == r + LossCap(false, net) * r * net
  {
    if 1.0 + net <= 0.0 {
      var k := -1.0 / net;
      assert k * net == -1.0;
      assert k * r * net == r * (k * net);
    }
  }

  lemma HoldPathBears(vec: seq<real>, specs: seq<HoldSpec>)
    requires AllAligned(specs, |vec|)
    ensures Bears(Nets(vec, specs), Ratios(vec, specs), Scales(vec, specs))
  {
    hide Compound, Scale, NetStep;
    CompoundStart(vec, specs);
    var net, ratio, scale := Nets(vec, specs), Ratios(vec, specs), Scales(vec, specs);
    forall s | 0 <= s < |vec| ensures ratio[s + 1] == ratio[s] + scale[s] * ratio[s] * net[s] {
      EquityBorne(vec, specs, s);
    }
  }

  lemma EquityBorne(vec: seq<real>, specs: seq<HoldSpec>, s: nat)
    requires AllAligned(specs, |vec|) && s < |vec|
    ensures var r := Compound(vec, specs, s).ratio;
            Compound(vec, specs, s + 1).ratio == r + Scale(vec, specs, s) * r * NetStep(vec, specs, s)
  {
    hide Compound, Scale, NetStep, Grow, LossCap, Net, Book, Resize, HoldContrib;
    CompoundStep(vec, specs, s);
    EquityNonNegative(vec, specs, s);
    var a := Compound(vec, specs, s);
    LossBorne(a.wiped, a.ratio, NetStep(vec, specs, s), Compound(vec, specs, s + 1).ratio, Scale(vec, specs, s));
  }

  lemma LossBorne(wiped: bool, r: real, net: real, r': real, scale: real)
    requires r >= 0.0 && scale == LossCap(wiped, net)
    requires if wiped then r == 0.0 && r' == 0.0 else r' == Grow(r, net)
    ensures r' == r + scale * r * net
  {
    hide Grow, LossCap;
    if !wiped {
      GrowthBorne(r, net);
    }
  }

  lemma {:induction false} NetIsColumn(vec: seq<real>, specs: seq<HoldSpec>, s: nat, k: nat)
    requires AllAligned(specs, |vec|) && s < |vec| && k <= |specs|
    ensures Net(vec[s], specs, Compound(vec, specs, s), s, |vec|, k) ==
            vec[s] + Column(HoldRows(vec, specs)[..k], |vec|, s)
  {
    hide Compound, Book, HoldContrib;
    if k > 0 {
      NetIsColumn(vec, specs, s, k - 1);
      var rows := HoldRows(vec, specs);
      assert rows[..k][..k - 1] == rows[..k - 1];
      CompoundStep(vec, specs, s);
      EquityNonNegative(vec, specs, s);
      UnbookedWhenWiped(specs[k - 1], Compound(vec, specs, s).legs[k - 1], s, |vec|);
    }
  }

  lemma UnbookedWhenWiped(sp: HoldSpec, l: Leg, s: nat, n: nat)
    requires Aligned(sp, n + 1) && s < n && LegOk(sp, l)
    ensures Book(sp, l, s, 0.0).0 == 0.0
  {}

  lemma {:induction false} ColumnConcat(a: seq<seq<real>>, b: seq<seq<real>>, n: nat, s: nat)
    requires Rectangular(a, n) && Rectangular(b, n) && s < n
    ensures Rectangular(a + b, n)
    ensures Column(a + b, n, s) == Column(a, n, s) + Column(b, n, s)
  {
    if b == [] {
      assert a + b == a;
    } else {
      assert (a + b)[..|a + b| - 1] == a + b[..|b| - 1];
      ColumnConcat(a, b[..|b| - 1], n, s);
    }
  }

  /** Over any mix of vectorized inputs and hold legs, and through ruin, the
      summed contributions equal the equity change plus the costs borne. */
  lemma AccountReconciles(vec: seq<real>, specs: seq<HoldSpec>, inputs: seq<seq<real>>, drag: seq<real>, t: nat)
    requires AllAligned(specs, |vec|) && Rectangular(inputs, |vec|) && |drag| == |vec| && t <= |vec|
    requires forall s :: 0 <= s < |vec| ==> vec[s] == Column(inputs, |vec|, s) - drag[s]
    ensures Rectangular(inputs + HoldRows(vec, specs), |vec|)
    ensures var scale, ratio := Scales(vec, specs), Ratios(vec, specs);
            Total(scale, ratio, inputs + HoldRows(vec, specs), t) ==
            Compound(vec, specs, t).ratio - 1.0 + Cumulative(scale, ratio, drag, t)
  {
    hide Compound, Scale, NetStep, HoldContrib;
    var rows := inputs + HoldRows(vec, specs);
    var net := Nets(vec, specs);
    HoldPathBears(vec, specs);
    forall s | 0 <= s < |vec| ensures net[s] == Column(rows, |vec|, s) - drag[s] {
      ColumnConcat(inputs, HoldRows(vec, specs), |vec|, s);
      CompoundStep(vec, specs, s);
      NetIsColumn(vec, specs, s, |specs|);
      assert HoldRows(vec, specs)[..|specs|] == HoldRows(vec, specs);
    }
    assert Rectangular(rows, |vec|);
    Reconciles(net, Ratios(vec, specs), Scales(vec, specs), rows, drag, t);
  }

  /** The same for an account without hold legs. */
  lemma ClampedReconciles(inputs: seq<seq<real>>, drag: seq<real>, net: seq<real>, t: nat)
    requires Rectangular(inputs, |net|) && |drag| == |net| && t <= |net|
    requires forall s :: 0 <= s < |net| ==> net[s] == Column(inputs, |net|, s) - drag[s]
    ensures var ratio := seq(|net| + 1, u requires 0 <= u <= |net| => Clamped(net, u).0);
            var scale := seq(|net|, s requires 0 <= s < |net| => LossCap(Clamped(net, s).1, net[s]));
            Total(scale, ratio, inputs, t) == Clamped(net, t).0 - 1.0 + Cumulative(scale, ratio, drag, t)
  {
    hide Compound, Scale, LossCap, Clamped;
    var ratio := seq(|net| + 1, u requires 0 <= u <= |net| => Clamped(net, u).0);
    var scale := seq(|net|, s requires 0 <= s < |net| => LossCap(Clamped(net, s).1, net[s]));
    forall u | 0 <= u <= |net| ensures ratio[u] == Ratios(net, [])[u] {
      NoHoldLegs(net, u);
    }
    forall s | 0 <= s < |net| ensures scale[s] == Scales(net, [])[s] {
      NoHoldLegs(net, s);
      CompoundStep(net, [], s);
    }
    assert ratio == Ratios(net, []) && scale == Scales(net, []);
    AccountReconciles(net, [], inputs, drag, t);
    NoHoldLegs(net, t);
    assert inputs + HoldRows(net, []) == inputs;
  }
}
