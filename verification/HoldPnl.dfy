/** Joint compounding of vectorized inputs and fixed-contract option legs into one
    wipeout-clamped equity ratio. Floats are reals; NaN is None. */
module HoldPnl {
  import opened Wrappers

  type Num = Option<real>

  /** One hold-mode option leg, aligned to the bar axis. `futures` selects
      futures-notional sizing; `hedgeFactor` None means no hedge overlay. */
  datatype HoldSpec = HoldSpec(
    sign: real, navTimes: real, premium: seq<Num>, isRoll: seq<bool>, rollPremium: seq<Num>,
    posActive: seq<bool>, futures: bool, rollFutureRef: Option<seq<Num>>, dailyFutureRef: Option<seq<Num>>,
    multFut: Num, multOpt: Num,
    hedgeFactor: Option<real>, hedgeDelta: Option<seq<Num>>, hedgePrice: Option<seq<Num>>,
    hedgeActive: Option<seq<bool>>, hedgeUnitDelta: Option<seq<Num>>,
    rebalanceDays: int, qtyCapMult: real)

  predicate Aligned(sp: HoldSpec, T: nat) {
    && |sp.premium| == |sp.isRoll| == |sp.rollPremium| == |sp.posActive| == T
    && (sp.hedgeDelta.Some? ==> |sp.hedgeDelta.value| == T)
    && (sp.hedgePrice.Some? ==> |sp.hedgePrice.value| == T)
    && (sp.hedgeActive.Some? ==> |sp.hedgeActive.value| == T)
    && (sp.hedgeUnitDelta.Some? ==> |sp.hedgeUnitDelta.value| == T)
  }

  /** Every leg lives on the bar axis of the n steps of the vectorized inputs. */
  predicate AllAligned(specs: seq<HoldSpec>, n: nat) {
    forall i :: 0 <= i < |specs| ==> Aligned(specs[i], n + 1)
  }

  // ----- Sizing inputs -----------------------------------------------------

  function RefAt(arr: Option<seq<Num>>, b: nat): Num {
    if arr.None? || b >= |arr.value| then None else arr.value[b]
  }

  predicate Positive(x: Num) {
    x.Some? && x.value > 0.0
  }

  /** A futures-notional quantity can be sized at this reference price. */
  predicate DenomOk(sp: HoldSpec, fref: Num) {
    Positive(fref) && Positive(sp.multFut) && Positive(sp.multOpt)
  }

  /** The price a segment that opens on bar b is opened at. */
  function OpenPremium(sp: HoldSpec, b: nat): Num
    requires b < |sp.isRoll| == |sp.rollPremium| == |sp.premium|
  {
    if sp.isRoll[b] then sp.rollPremium[b] else sp.premium[b]
  }

  /** The reference price for an open on bar b: the roll's own, or off a roll the
      carried one, or else that date's front future. */
  function OpenRef(sp: HoldSpec, b: nat, carried: Num): Num
    requires b < |sp.isRoll|
  {
    var here := RefAt(sp.rollFutureRef, b);
    if sp.isRoll[b] || here.Some? then here
    else if carried.Some? then carried
    else RefAt(sp.dailyFutureRef, b)
  }

  // ----- The hedge overlay -------------------------------------------------

  function Clip(x: real, lo: real, hi: real): (r: real)
    ensures lo <= hi ==> lo <= r <= hi && (lo <= x <= hi ==> r == x)
  {
    var y := if x < lo then lo else x;
    if y > hi then hi else y
  }

  function HedgedDelta(factor: real, optionQty: real, optionDelta: real): real {
    -factor * optionQty * optionDelta
  }

  function DeltaHedgeQty(factor: real, optionQty: real, optionDelta: real, unitDelta: Num, capMult: real): real {
    if unitDelta.None? || AbsReal(unitDelta.value) < 0.000001 then 0.0
    else
      var bound := capMult * AbsReal(optionQty);
      Clip(HedgedDelta(factor, optionQty, optionDelta) / unitDelta.value, -bound, bound)
  }

  function HedgeStepContrib(factor: real, optionQty: real, delta: Num, unitDelta: Num, dPrice: Num, capMult: real): real {
    if delta.None? || dPrice.None? then 0.0
    else DeltaHedgeQty(factor, optionQty, delta.value, unitDelta, capMult) * dPrice.value
  }

  function Minus(a: Num, b: Num): Num {
    if a.Some? && b.Some? then Some(a.value - b.value) else None
  }

  predicate HedgeOn(sp: HoldSpec, s: nat)
    requires sp.hedgeActive.Some? ==> s < |sp.hedgeActive.value|
  {
    sp.hedgeFactor.Some? && (sp.hedgeActive.Some? ==> sp.hedgeActive.value[s])
    && sp.hedgeDelta.Some? && sp.hedgePrice.Some?
  }

  // ----- One leg -----------------------------------------------------------

  /** The running state of one leg: the current segment's open premium, frozen
      reference price and equity at its open, the last finite premium, and the
      delta captured at the last hedge rebalance. */
  datatype Leg = Leg(segPremium: Num, segFref: Num, segEr: real, holding: bool, lastFinite: Num,
                     frozenDelta: Num, frozenUnit: Num)

  const NO_LEG := Leg(None, None, 1.0, false, None, None, None)

  predicate LegOk(sp: HoldSpec, l: Leg) {
    && (l.segPremium.Some? ==> l.segPremium.value > 0.0)
    && (l.segFref.Some? ==> DenomOk(sp, l.segFref))
    && (l.holding ==> l.segPremium.Some? && l.lastFinite.Some? && (sp.futures ==> l.segFref.Some?))
  }

  /** Bar 0: a leg latched there is sized off equity 1. */
  function Seed(sp: HoldSpec): (l: Leg)
    requires Aligned(sp, |sp.premium|) && |sp.premium| > 0
    ensures LegOk(sp, l)
  {
    var open, fref := OpenPremium(sp, 0), OpenRef(sp, 0, None);
    if !sp.posActive[0] || !Positive(open) then NO_LEG
    else if !sp.futures then Leg(open, None, 1.0, true, open, None, None)
    else if DenomOk(sp, fref) then Leg(open, fref, 1.0, true, open, None, None)
    else NO_LEG
  }

  predicate Books(sp: HoldSpec, l: Leg, s: nat, ratio: real)
    requires Aligned(sp, |sp.premium|) && s + 1 < |sp.premium|
  {
    l.holding && sp.posActive[s] && sp.posActive[s + 1] && ratio != 0.0
  }

  /** The base of the step's premium move. */
  function Base(sp: HoldSpec, l: Leg, s: nat): Num
    requires s < |sp.isRoll| == |sp.rollPremium|
  {
    if sp.isRoll[s] then sp.rollPremium[s] else l.lastFinite
  }

  /** The option's own contribution as a fraction of current equity. */
  function OptionContrib(sp: HoldSpec, l: Leg, s: nat, ratio: real): real
    requires Aligned(sp, |sp.premium|) && s + 1 < |sp.premium| && LegOk(sp, l) && ratio != 0.0
  {
    var dprem := Minus(sp.premium[s + 1], Base(sp, l, s));
    if dprem.None? then 0.0
    else if sp.futures then
      if l.segFref.None? then 0.0
      else sp.sign * sp.navTimes * (l.segEr / ratio) * (dprem.value * sp.multOpt.value)
           / (l.segFref.value * sp.multFut.value)
    else
      if l.segPremium.None? then 0.0
      else sp.sign * sp.navTimes * (l.segEr / ratio) * dprem.value / l.segPremium.value
  }

  /** The option quantity the hedge is sized off, per unit of current equity. */
  function OptionQty(sp: HoldSpec, l: Leg, ratio: real): Num
    requires LegOk(sp, l) && ratio != 0.0
  {
    if sp.futures then
      if l.segFref.None? then None
      else Some(sp.sign * sp.navTimes * (l.segEr / ratio) * sp.multOpt.value / (l.segFref.value * sp.multFut.value))
    else
      if l.segPremium.None? then None
      else Some(sp.sign * sp.navTimes * (l.segEr / ratio) / l.segPremium.value)
  }

  /** The delta sizing in force on step s: recaptured on a rebalance bar, or when
      nothing is captured yet. */
  function Capture(sp: HoldSpec, frozenDelta: Num, frozenUnit: Num, s: nat): (Num, Num)
    requires sp.hedgeDelta.Some? && s < |sp.hedgeDelta.value|
    requires sp.hedgeUnitDelta.Some? ==> s < |sp.hedgeUnitDelta.value|
  {
    if sp.rebalanceDays <= 1 || s % sp.rebalanceDays == 0 || frozenDelta.None? then
      (sp.hedgeDelta.value[s], if sp.hedgeUnitDelta.Some? then sp.hedgeUnitDelta.value[s] else Some(1.0))
    else (frozenDelta, frozenUnit)
  }

  /** Book step s: the leg's contribution and its state before bar s+1 is sized. */
  function Book(sp: HoldSpec, l: Leg, s: nat, ratio: real): (r: (real, Leg))
    requires Aligned(sp, |sp.premium|) && s + 1 < |sp.premium| && LegOk(sp, l)
    ensures LegOk(sp, r.1)
  {
    if !Books(sp, l, s, ratio) then (0.0, l)
    else
      var cur := sp.premium[s + 1];
      var l1 := if cur.Some? then l.(lastFinite := cur) else l;
      var own := OptionContrib(sp, l, s, ratio);
      var qty := OptionQty(sp, l, ratio);
      if !HedgeOn(sp, s) || qty.None? then (own, l1)
      else
        var (delta, unit) := Capture(sp, l.frozenDelta, l.frozenUnit, s);
        var move := Minus(sp.hedgePrice.value[s + 1], sp.hedgePrice.value[s]);
        (own + HedgeStepContrib(sp.hedgeFactor.value, qty.value, delta, unit, move, sp.qtyCapMult),
         l1.(frozenDelta := delta, frozenUnit := unit))
  }

  /** (Re)size the leg on bar b off that bar's equity. */
  function Resize(sp: HoldSpec, l: Leg, b: nat, ratio: real): (r: Leg)
    requires Aligned(sp, |sp.premium|) && b < |sp.premium| && LegOk(sp, l)
    ensures LegOk(sp, r)
  {
    if !sp.posActive[b] then l.(holding := false)
    else if !(sp.isRoll[b] || !l.holding) then l
    else
      var l1 := if sp.hedgeFactor.Some? then l.(frozenDelta := None, frozenUnit := None) else l;
      var open, fref := OpenPremium(sp, b), OpenRef(sp, b, l.segFref);
      if !Positive(open) || ratio == 0.0 then l1
      else if !sp.futures then l1.(segPremium := open, segEr := ratio, holding := true, lastFinite := open)
      else
        var l2 := l1.(segPremium := open, lastFinite := open);
        if DenomOk(sp, fref) then l2.(segFref := fref, segEr := ratio, holding := true) else l2
  }

  // ----- The account -------------------------------------------------------

  datatype Account = Account(ratio: real, wiped: bool, legs: seq<Leg>)

  predicate AccountOk(specs: seq<HoldSpec>, a: Account) {
    |a.legs| == |specs| && forall i :: 0 <= i < |specs| ==> LegOk(specs[i], a.legs[i])
  }

  /** The step's netted return: the vectorized part plus the first k legs'. */
  function Net(v: real, specs: seq<HoldSpec>, a: Account, s: nat, n: nat, k: nat): real
    requires AllAligned(specs, n) && AccountOk(specs, a) && s < n && k <= |specs|
  {
    if k == 0 then v else Net(v, specs, a, s, n, k - 1) + Book(specs[k - 1], a.legs[k - 1], s, a.ratio).0
  }

  /** Equity after a step that nets to `net`: ruin is absorbing and exactly 0. */
  function Grow(ratio: real, net: real): real {
    if 1.0 + net <= 0.0 then 0.0 else ratio * (1.0 + net)
  }

  /** On the wiping step the loss is capped at the remaining equity. */
  function LossCap(wiped: bool, net: real): real {
    if wiped then 0.0 else if 1.0 + net > 0.0 then 1.0 else if net != 0.0 then -1.0 / net else 0.0
  }

  /** The equity ratio, its ruin flag and the legs at the start of bar t. */
  function Compound(vec: seq<real>, specs: seq<HoldSpec>, t: nat): (a: Account)
    requires AllAligned(specs, |vec|) && t <= |vec|
    ensures AccountOk(specs, a)
  {
    if t == 0 then
      Account(1.0, false, seq(|specs|, i requires 0 <= i < |specs| => Seed(specs[i])))
    else
      var a, s := Compound(vec, specs, t - 1), t - 1;
      if a.wiped then Account(0.0, true, a.legs)
      else
        var net := Net(vec[s], specs, a, s, |vec|, |specs|);
        var r := Grow(a.ratio, net);
        Account(r, 1.0 + net <= 0.0, seq(|specs|, i requires 0 <= i < |specs| =>
          Resize(specs[i], Book(specs[i], a.legs[i], s, a.ratio).1, t, r)))
  }

  function NetStep(vec: seq<real>, specs: seq<HoldSpec>, s: nat): real
    requires AllAligned(specs, |vec|) && s < |vec|
  {
    Net(vec[s], specs, Compound(vec, specs, s), s, |vec|, |specs|)
  }

  /** The share of step s's contributions that the account actually bears. */
  function Scale(vec: seq<real>, specs: seq<HoldSpec>, s: nat): real
    requires AllAligned(specs, |vec|) && s < |vec|
  {
    LossCap(Compound(vec, specs, s).wiped, NetStep(vec, specs, s))
  }

  /** What leg i books on step s; nothing once wiped. */
  function HoldContrib(vec: seq<real>, specs: seq<HoldSpec>, i: nat, s: nat): real
    requires AllAligned(specs, |vec|) && s < |vec| && i < |specs|
  {
    var a := Compound(vec, specs, s);
    if a.wiped then 0.0 else Book(specs[i], a.legs[i], s, a.ratio).0
  }

  /** Advance the equity of an account that is not wiped. */
  method AdvanceEquity(ratio: real, net: real) returns (next: real, scale: real, wiped: bool)
    ensures next == Grow(ratio, net) && scale == LossCap(false, net) && wiped == (1.0 + net <= 0.0)
  {
    var f := 1.0 + net;
    if f <= 0.0 {
      next, wiped := 0.0, true;
      scale := if net != 0.0 then -1.0 / net else 0.0;
    } else {
      next, scale, wiped := ratio * f, 1.0, false;
    }
  }

  /** Book step s of every leg into column s, and add up the netted return. */
  method BookLegs(v: real, specs: seq<HoldSpec>, ghost a: Account, legs0: seq<Leg>, s: nat, ratio: real,
                  n: nat, out: array2<real>)
    returns (net: real, legs: seq<Leg>)
    requires AllAligned(specs, n) && AccountOk(specs, a) && s < n && a.legs == legs0 && a.ratio == ratio
    requires out.Length0 == |specs| && out.Length1 == n
    modifies out
    ensures net == Net(v, specs, a, s, n, |specs|) && |legs| == |specs|
    ensures forall i :: 0 <= i < |specs| ==> (out[i, s], legs[i]) == Book(specs[i], a.legs[i], s, ratio)
    ensures forall i, t :: 0 <= i < |specs| && 0 <= t < n && t != s ==> out[i, t] == old(out[i, t])
  {
    hide Book;
    net, legs := v, legs0;
    for i := 0 to |specs|
      invariant |legs| == |specs| && net == Net(v, specs, a, s, n, i)
      invariant forall j :: i <= j < |specs| ==> legs[j] == a.legs[j]
      invariant forall j :: 0 <= j < i ==> (out[j, s], legs[j]) == Book(specs[j], a.legs[j], s, ratio)
      invariant forall j, t :: 0 <= j < |specs| && 0 <= t < n && t != s ==> out[j, t] == old(out[j, t])
    {
      var (contrib, leg) := Book(specs[i], legs[i], s, ratio);
      legs := legs[i := leg];
      out[i, s] := contrib;
      net := net + contrib;
    }
  }

  method ResizeLegs(specs: seq<HoldSpec>, legs0: seq<Leg>, b: nat, ratio: real, n: nat) returns (legs: seq<Leg>)
    requires AllAligned(specs, n) && AccountOk(specs, Account(ratio, false, legs0)) && b <= n
    ensures |legs| == |specs|
    ensures forall i :: 0 <= i < |specs| ==> legs[i] == Resize(specs[i], legs0[i], b, ratio)
  {
    hide Resize;
    legs := legs0;
    for i := 0 to |specs|
      invariant |legs| == |specs|
      invariant forall j :: 0 <= j < |specs| ==>
                  legs[j] == if j < i then Resize(specs[j], legs0[j], b, ratio) else legs0[j]
    {
      legs := legs[i := Resize(specs[i], legs[i], b, ratio)];
    }
  }

  method SeedLegs(specs: seq<HoldSpec>, n: nat) returns (legs: seq<Leg>)
    requires AllAligned(specs, n)
    ensures |legs| == |specs| && forall i :: 0 <= i < |specs| ==> legs[i] == Seed(specs[i])
  {
    legs := [];
    for i := 0 to |specs|
      invariant |legs| == i && forall j :: 0 <= j < i ==> legs[j] == Seed(specs[j])
    {
      legs := legs + [Seed(specs[i])];
    }
  }

  lemma CompoundStart(vec: seq<real>, specs: seq<HoldSpec>)
    requires AllAligned(specs, |vec|)
    ensures var a := Compound(vec, specs, 0);
            a.ratio == 1.0 && !a.wiped && forall i :: 0 <= i < |specs| ==> a.legs[i] == Seed(specs[i])
  {}

  /** How an account and its outputs follow from the account one bar earlier. */
  lemma CompoundStep(vec: seq<real>, specs: seq<HoldSpec>, s: nat)
    requires AllAligned(specs, |vec|) && s < |vec|
    ensures var a, a', net := Compound(vec, specs, s), Compound(vec, specs, s + 1), NetStep(vec, specs, s);
            && Scale(vec, specs, s) == LossCap(a.wiped, net)
            && net == Net(vec[s], specs, a, s, |vec|, |specs|)
            && (a.wiped ==> a' == Account(0.0, true, a.legs) && Scale(vec, specs, s) == 0.0)
            && (!a.wiped ==> a'.ratio == Grow(a.ratio, net) && a'.wiped == (1.0 + net <= 0.0))
            && forall i :: 0 <= i < |specs| ==>
                 && HoldContrib(vec, specs, i, s) == (if a.wiped then 0.0 else Book(specs[i], a.legs[i], s, a.ratio).0)
                 && (!a.wiped ==>
                       a'.legs[i] == Resize(specs[i], Book(specs[i], a.legs[i], s, a.ratio).1, s + 1, a'.ratio))
  {
    hide Book, Resize, Seed, Net, Grow, DenomOk;
  }

  /** The sequential joint pass. */
  method CompoundWithHold(vec: seq<real>, specs: seq<HoldSpec>)
    returns (ratio: array<real>, stepScale: array<real>, holdContrib: array2<real>)
    requires AllAligned(specs, |vec|)
    ensures ratio.Length == |vec| + 1 && stepScale.Length == |vec|
    ensures holdContrib.Length0 == |specs| && holdContrib.Length1 == |vec|
    ensures forall t :: 0 <= t <= |vec| ==> ratio[t] == Compound(vec, specs, t).ratio
    ensures forall s :: 0 <= s < |vec| ==> stepScale[s] == Scale(vec, specs, s)
    ensures forall i, s :: 0 <= i < |specs| && 0 <= s < |vec| ==>
              holdContrib[i, s] == HoldContrib(vec, specs, i, s)
  {
    hide Grow, LossCap, Book, Resize, Seed, Net, DenomOk, Compound, Scale, HoldContrib, NetStep, LegOk, Aligned;
    var n, k := |vec|, |specs|;
    CompoundStart(vec, specs);
    ratio := new real[n + 1];
    ratio[0] := 1.0;
    stepScale := new real[n];
    holdContrib := new real[k, n]((_, _) => 0.0);
    var legs := SeedLegs(specs, n);
    var wiped := false;
    assert legs == Compound(vec, specs, 0).legs;
    for s := 0 to n
      invariant Account(ratio[s], wiped, legs) == Compound(vec, specs, s)
      invariant forall t :: 0 <= t <= s ==> ratio[t] == Compound(vec, specs, t).ratio
      invariant forall t :: 0 <= t < s ==> stepScale[t] == Scale(vec, specs, t)
      invariant forall i, t :: 0 <= i < k && 0 <= t < s ==> holdContrib[i, t] == HoldContrib(vec, specs, i, t)
      invariant forall i, t :: 0 <= i < k && s <= t < n ==> holdContrib[i, t] == 0.0
    {
      CompoundStep(vec, specs, s);
      if wiped {
        ratio[s + 1], stepScale[s] := 0.0, 0.0;
      } else {
        var net;
        net, legs := BookLegs(vec[s], specs, Compound(vec, specs, s), legs, s, ratio[s], n, holdContrib);
        ratio[s + 1], stepScale[s], wiped := AdvanceEquity(ratio[s], net);
        legs := ResizeLegs(specs, legs, s + 1, ratio[s + 1], n);
        assert legs == Compound(vec, specs, s + 1).legs;
      }
    }
  }

  // ----- Without hold legs -------------------------------------------------

  /** The equity ratio and its ruin flag under netted steps alone. */
  function Clamped(net: seq<real>, t: nat): (real, bool)
    requires t <= |net|
  {
    if t == 0 then (1.0, false)
    else
      var (r, wiped) := Clamped(net, t - 1);
      if wiped then (0.0, true)
      else
        (Grow(r, net[t - 1]), 1.0 + net[t - 1] <= 0.0)
  }

  lemma ClampedStart(net: seq<real>)
    ensures Clamped(net, 0) == (1.0, false)
  {}

  lemma ClampedStep(net: seq<real>, s: nat)
    requires s < |net|
    ensures Clamped(net, s).1 ==> Clamped(net, s + 1) == (0.0, true) && LossCap(Clamped(net, s).1, net[s]) == 0.0
    ensures !Clamped(net, s).1 ==> Clamped(net, s + 1) == (Grow(Clamped(net, s).0, net[s]), 1.0 + net[s] <= 0.0)
  {
    hide Grow;
  }

  method CompoundClamped(net: seq<real>) returns (ratio: array<real>, stepScale: array<real>)
    ensures ratio.Length == |net| + 1 && stepScale.Length == |net|
    ensures forall t :: 0 <= t <= |net| ==> ratio[t] == Clamped(net, t).0
    ensures forall s :: 0 <= s < |net| ==>
              stepScale[s] == LossCap(Clamped(net, s).1, net[s])
  {
    hide Grow, LossCap, Clamped;
    var n := |net|;
    ClampedStart(net);
    ratio := new real[n + 1];
    ratio[0] := 1.0;
    stepScale := new real[n];
    var wiped := false;
    for s := 0 to n
      invariant (ratio[s], wiped) == Clamped(net, s)
      invariant forall t :: 0 <= t <= s ==> ratio[t] == Clamped(net, t).0
      invariant forall t :: 0 <= t < s ==>
                  stepScale[t] == LossCap(Clamped(net, t).1, net[t])
    {
      ClampedStep(net, s);
      if wiped {
        ratio[s + 1], stepScale[s] := 0.0, 0.0;
      } else {
        ratio[s + 1], stepScale[s], wiped := AdvanceEquity(ratio[s], net[s]);
      }
    }
  }

  /** With no hold legs the joint pass is the plain one. */
  lemma {:induction false} NoHoldLegs(vec: seq<real>, t: nat)
    requires t <= |vec|
    ensures var a := Compound(vec, [], t); (a.ratio, a.wiped) == Clamped(vec, t)
  {
    if t > 0 {
      NoHoldLegs(vec, t - 1);
      var a := Compound(vec, [], t - 1);
      assert Net(vec[t - 1], [], a, t - 1, |vec|, 0) == vec[t - 1];
    }
  }
}
