/** What the delta-hedge overlay of a held leg does: how much of the option's delta
    it takes off, which bar's delta it is sized with, and what a step then books. */
module HoldHedge {
  import opened Wrappers
  import opened HoldPnl
  import opened HoldProofs
  import opened HoldBook
  import opened HoldSeams

  // ----- One hedge quantity ------------------------------------------------

  /** What is left of an exposure after h hedges of this unit delta, when at most
      `most` are allowed: nothing while that is enough, and otherwise exactly what
      is beyond them, on the side it was on. */
  predicate Leaves(h: real, unit: real, exposure: real, most: real) {
    var left := h * unit + exposure;
    if AbsReal(exposure) <= most * AbsReal(unit) then left == 0.0
    else AbsReal(h) == most && AbsReal(left) == AbsReal(exposure) - most * AbsReal(unit) && left * exposure > 0.0
  }

  /** h hedges take the fraction `factor` of the delta of q options off, as far as
      cap·|q| hedges can. (Below 0 the cap is no bound but the quantity itself.) */
  predicate Offsets(h: real, factor: real, q: real, delta: real, unit: real, cap: real) {
    if cap < 0.0 then h == cap * AbsReal(q) else Leaves(h, unit, factor * q * delta, cap * AbsReal(q))
  }

  lemma Negated(factor: real, q: real, delta: real)
    ensures HedgedDelta(factor, q, delta) == -(factor * q * delta)
  {}

  lemma ClipSides(x: real, b: real)
    requires b >= 0.0
    ensures AbsReal(x) <= b ==> Clip(x, -b, b) == x
    ensures x > b ==> Clip(x, -b, b) == b
    ensures x < -b ==> Clip(x, -b, b) == -b
  {}

  lemma Excess(x: real, b: real, u: real)
    ensures (x - b) * u == x * u - b * u
  {}

  lemma SameSide(y: real, x: real, unit: real, left: real, exposure: real)
    requires unit != 0.0 && (x > 0.0 > y || x < 0.0 < y) && left == y * unit && exposure == -(x * unit)
    ensures left * exposure > 0.0
  {
    assert y * -x > 0.0;
    assert unit * unit > 0.0;
    assert left * exposure == (y * -x) * (unit * unit);
  }

  lemma AbsNegative(x: real)
    ensures AbsReal(-x) == AbsReal(x)
  {}

  lemma ClipWithin(exposure: real, unit: real, x: real, b: real)
    requires unit != 0.0 && x * unit == -exposure && AbsReal(x) <= b
    ensures Leaves(x, unit, exposure, b)
  {
    AbsTimes(x, unit);
    AbsNegative(exposure);
    AbsPositive(unit);
    Monotone(AbsReal(unit), b, AbsReal(x));
    hide AbsReal;
  }

  lemma AbsPositive(u: real)
    requires u != 0.0
    ensures AbsReal(u) > 0.0
  {}

  lemma LeftOver(exposure: real, unit: real, x: real, h: real)
    requires x * unit == -exposure
    ensures h * unit + exposure == (h - x) * unit
  {
    Excess(h, x, unit);
  }

  lemma LeftSize(exposure: real, unit: real, x: real, y: real, b: real)
    requires unit != 0.0 && x * unit == -exposure && AbsReal(x) > b && AbsReal(y) == AbsReal(x) - b
    ensures AbsReal(exposure) > b * AbsReal(unit)
    ensures AbsReal(y * unit) == AbsReal(exposure) - b * AbsReal(unit)
  {
    AbsTimes(x, unit);
    AbsTimes(y, unit);
    AbsNegative(exposure);
    AbsPositive(unit);
    hide AbsReal;
    Monotone(AbsReal(unit), b, AbsReal(x));
    Excess(AbsReal(x), b, AbsReal(unit));
  }

  lemma ClipBeyond(exposure: real, unit: real, x: real, h: real, b: real)
    requires unit != 0.0 && x * unit == -exposure && AbsReal(x) > b
    requires AbsReal(h) == b && AbsReal(h - x) == AbsReal(x) - b && (x > 0.0 > h - x || x < 0.0 < h - x)
    ensures Leaves(h, unit, exposure, b)
  {
    hide AbsReal, Leaves;
    LeftOver(exposure, unit, x, h);
    LeftSize(exposure, unit, x, h - x, b);
    SameSide(h - x, x, unit, h * unit + exposure, exposure);
    LeavesBeyond(h, unit, exposure, b);
  }

  lemma LeavesBeyond(h: real, unit: real, exposure: real, b: real)
    requires var left := h * unit + exposure;
             AbsReal(h) == b && AbsReal(left) == AbsReal(exposure) - b * AbsReal(unit) && left * exposure > 0.0
    requires AbsReal(exposure) > b * AbsReal(unit)
    ensures Leaves(h, unit, exposure, b)
  {}

  /** What clipping a quotient leaves of the exposure. */
  lemma ClipLeaves(exposure: real, unit: real, x: real, b: real)
    requires b >= 0.0 && unit != 0.0 && x * unit == -exposure
    ensures Leaves(Clip(x, -b, b), unit, exposure, b)
  {
    hide Leaves;
    ClipSides(x, b);
    if AbsReal(x) <= b {
      ClipWithin(exposure, unit, x, b);
    } else {
      ClipBeyond(exposure, unit, x, Clip(x, -b, b), b);
    }
  }

  /** The hedge of q options takes their delta off; an unusable unit delta hedges
      nothing. */
  lemma HedgeOffsets(factor: real, q: real, delta: real, unit: Num, cap: real)
    ensures var h := DeltaHedgeQty(factor, q, delta, unit, cap);
            if unit.Some? && AbsReal(unit.value) >= 0.000001 then Offsets(h, factor, q, delta, unit.value, cap)
            else h == 0.0
  {
    hide Leaves, Clip, HedgedDelta;
    if unit.Some? && AbsReal(unit.value) >= 0.000001 {
      var e := HedgedDelta(factor, q, delta);
      Negated(factor, q, delta);
      Quotient(e, unit.value);
      AbsSign(q);
      if cap >= 0.0 {
        assert cap * AbsReal(q) >= 0.0;
        ClipLeaves(factor * q * delta, unit.value, e / unit.value, cap * AbsReal(q));
      } else {
        NotAbove(cap, AbsReal(q));
        ClipInverted(e / unit.value, cap * AbsReal(q));
      }
    }
  }

  lemma NotAbove(cap: real, n: real)
    requires cap <= 0.0 && n >= 0.0
    ensures cap * n <= 0.0
  {
    assert -cap * n >= 0.0;
  }

  lemma ClipInverted(x: real, b: real)
    requires b <= 0.0
    ensures Clip(x, -b, b) == b
  {}

  lemma AbsSign(q: real)
    ensures AbsReal(q) >= 0.0
  {}

  lemma Quotient(e: real, u: real)
    requires u != 0.0
    ensures (e / u) * u == e
  {}

  // ----- Which bar's delta it is sized with --------------------------------

  /** The overlay runs on step s. */
  predicate Accrues(sp: HoldSpec, s: nat)
    requires sp.hedgeActive.Some? ==> s < |sp.hedgeActive.value|
  {
    && sp.hedgeFactor.Some? && sp.hedgeDelta.Some? && sp.hedgePrice.Some?
    && (sp.hedgeActive.Some? ==> sp.hedgeActive.value[s])
  }

  predicate RebalanceBar(sp: HoldSpec, s: nat) {
    sp.rebalanceDays <= 1 || s % sp.rebalanceDays == 0
  }

  /** The bar whose delta sizes the hedge after the steps a..b-1 of a segment opened
      on bar a: the latest of them that accrued and was a rebalance bar, or that
      accrued with no delta at hand. */
  function SizedOn(sp: HoldSpec, a: nat, b: nat): (r: Option<nat>)
    requires Aligned(sp, |sp.premium|) && a <= b < |sp.premium|
    ensures r.Some? ==> a <= r.value < b && Accrues(sp, r.value)
  {
    if a == b then None
    else
      var s, before := b - 1, SizedOn(sp, a, b - 1);
      if Accrues(sp, s) && (RebalanceBar(sp, s) || before.None? || sp.hedgeDelta.value[before.value].None?) then Some(s)
      else before
  }

  function DeltaOn(sp: HoldSpec, r: Option<nat>): Num
    requires r.Some? && sp.hedgeDelta.Some? ==> r.value < |sp.hedgeDelta.value|
  {
    if r.Some? && sp.hedgeDelta.Some? then sp.hedgeDelta.value[r.value] else None
  }

  /** The hedge instrument's own delta; 1 for a future. */
  function UnitOn(sp: HoldSpec, r: Option<nat>): Num
    requires r.Some? && sp.hedgeUnitDelta.Some? ==> r.value < |sp.hedgeUnitDelta.value|
  {
    if r.None? then None else if sp.hedgeUnitDelta.Some? then sp.hedgeUnitDelta.value[r.value] else Some(1.0)
  }

  lemma ResizeClears(sp: HoldSpec, l: Leg, b: nat, ratio: real)
    requires Aligned(sp, |sp.premium|) && b < |sp.premium| && LegOk(sp, l) && sp.hedgeFactor.Some?
    requires sp.posActive[b] && (sp.isRoll[b] || !l.holding)
    ensures Resize(sp, l, b, ratio).frozenDelta == None && Resize(sp, l, b, ratio).frozenUnit == None
  {
    hide OpenPremium, OpenRef, DenomOk;
  }

  lemma OpenedClears(vec: seq<real>, specs: seq<HoldSpec>, i: nat, a: nat)
    requires AllAligned(specs, |vec|) && i < |specs| && a <= |vec|
    requires Opened(vec, specs, i, a) && specs[i].hedgeFactor.Some? && Compound(vec, specs, a).ratio != 0.0
    ensures Compound(vec, specs, a).legs[i].frozenDelta == None && Compound(vec, specs, a).legs[i].frozenUnit == None
  {
    hide Compound, Book, Resize, Grow, LossCap, Net, OpenPremium, OpenRef, DenomOk;
    if a == 0 {
      CompoundStart(vec, specs);
    } else {
      NotRuined(vec, specs, a - 1, a);
      LegAfter(vec, specs, i, a - 1);
      var b := Compound(vec, specs, a - 1);
      BookKeeps(specs[i], b.legs[i], a - 1, b.ratio);
      ResizeClears(specs[i], Book(specs[i], b.legs[i], a - 1, b.ratio).1, a, Compound(vec, specs, a).ratio);
    }
  }

  lemma CaptureStep(sp: HoldSpec, l: Leg, a: nat, s: nat, ratio: real)
    requires Aligned(sp, |sp.premium|) && a <= s && s + 1 < |sp.premium| && LegOk(sp, l) && Books(sp, l, s, ratio)
    requires l.frozenDelta == DeltaOn(sp, SizedOn(sp, a, s)) && l.frozenUnit == UnitOn(sp, SizedOn(sp, a, s))
    ensures var l' := Book(sp, l, s, ratio).1;
            && l'.frozenDelta == DeltaOn(sp, SizedOn(sp, a, s + 1)) && l'.frozenUnit == UnitOn(sp, SizedOn(sp, a, s + 1))
    ensures HedgeOn(sp, s) <==> Accrues(sp, s)
    ensures Accrues(sp, s) ==> Capture(sp, l.frozenDelta, l.frozenUnit, s) ==
                                 (DeltaOn(sp, SizedOn(sp, a, s + 1)), UnitOn(sp, SizedOn(sp, a, s + 1)))
  {
    hide OptionContrib, HedgeStepContrib;
  }

  /** Inside a segment the delta at hand is that of the bar it was sized on. */
  lemma {:induction false} SegmentHedge(vec: seq<real>, specs: seq<HoldSpec>, i: nat, a: nat, s: nat)
    requires AllAligned(specs, |vec|) && i < |specs| && a <= s < |vec|
    requires OneSegment(specs[i], a, s + 1) && specs[i].hedgeFactor.Some? && Opened(vec, specs, i, a)
    requires Compound(vec, specs, a).legs[i].holding && Compound(vec, specs, s).ratio != 0.0
    ensures var sp, l := specs[i], Compound(vec, specs, s).legs[i];
            l.frozenDelta == DeltaOn(sp, SizedOn(sp, a, s)) && l.frozenUnit == UnitOn(sp, SizedOn(sp, a, s))
    ensures Books(specs[i], Compound(vec, specs, s).legs[i], s, Compound(vec, specs, s).ratio)
  {
    hide Compound, SizedOn, DeltaOn, UnitOn, Book, Opened;
    if a < s {
      NotRuined(vec, specs, s - 1, s);
      SegmentHedge(vec, specs, i, a, s - 1);
      var b := Compound(vec, specs, s - 1);
      CaptureStep(specs[i], b.legs[i], a, s - 1, b.ratio);
      LegAfter(vec, specs, i, s - 1);
      BookKeeps(specs[i], b.legs[i], s - 1, b.ratio);
    } else {
      OpenedClears(vec, specs, i, a);
      NothingSized(specs[i], a);
    }
  }

  lemma NothingSized(sp: HoldSpec, a: nat)
    requires Aligned(sp, |sp.premium|) && a < |sp.premium|
    ensures SizedOn(sp, a, a) == None && DeltaOn(sp, None) == None && UnitOn(sp, None) == None
  {}

  // ----- What a hedged step books ------------------------------------------

  /** The move of the hedge's price over step s; none while a quote is missing. */
  function PriceMove(sp: HoldSpec, s: nat): real
    requires sp.hedgePrice.Some? ==> s + 1 < |sp.hedgePrice.value|
  {
    if sp.hedgePrice.Some? && sp.hedgePrice.value[s].Some? && sp.hedgePrice.value[s + 1].Some?
    then sp.hedgePrice.value[s + 1].value - sp.hedgePrice.value[s].value else 0.0
  }

  /** What q options and h hedges make when their prices move by these amounts. */
  function Together(q: real, move: real, h: real, hedgeMove: real): real {
    q * move + h * hedgeMove
  }

  predicate Usable(unit: Num) {
    unit.Some? && AbsReal(unit.value) >= 0.000001
  }

  /** h hedges q options by the delta of bar r; none if that is missing or the unit
      delta unusable. */
  predicate Hedges(sp: HoldSpec, h: real, q: real, r: nat)
    requires sp.hedgeFactor.Some? && sp.hedgeDelta.Some? && r < |sp.hedgeDelta.value|
    requires sp.hedgeUnitDelta.Some? ==> r < |sp.hedgeUnitDelta.value|
  {
    var delta, unit := sp.hedgeDelta.value[r], UnitOn(sp, Some(r));
    if delta.Some? && Usable(unit) then Offsets(h, sp.hedgeFactor.value, q, delta.value, unit.value, sp.qtyCapMult)
    else h == 0.0
  }

  /** The quantity of hedges over a step, against q options. */
  function HedgeQty(sp: HoldSpec, q: real, r: Option<nat>): real
    requires sp.hedgeFactor.Some? && (r.Some? && sp.hedgeDelta.Some? ==> r.value < |sp.hedgeDelta.value|)
    requires r.Some? && sp.hedgeUnitDelta.Some? ==> r.value < |sp.hedgeUnitDelta.value|
  {
    if DeltaOn(sp, r).None? then 0.0
    else DeltaHedgeQty(sp.hedgeFactor.value, q, DeltaOn(sp, r).value, UnitOn(sp, r), sp.qtyCapMult)
  }

  lemma HedgeQtyHedges(sp: HoldSpec, q: real, r: nat)
    requires sp.hedgeFactor.Some? && sp.hedgeDelta.Some? && r < |sp.hedgeDelta.value|
    requires sp.hedgeUnitDelta.Some? ==> r < |sp.hedgeUnitDelta.value|
    ensures Hedges(sp, HedgeQty(sp, q, Some(r)), q, r)
  {
    hide DeltaHedgeQty, Offsets, UnitOn;
    var delta := sp.hedgeDelta.value[r];
    if delta.Some? {
      HedgeOffsets(sp.hedgeFactor.value, q, delta.value, UnitOn(sp, Some(r)), sp.qtyCapMult);
    }
  }

  /** In fractions of the capital, the overlay books quantity times price move. */
  lemma HedgePartDollars(sp: HoldSpec, l: Leg, a: nat, s: nat, ratio: real)
    requires Aligned(sp, |sp.premium|) && a <= s && s + 1 < |sp.premium| && LegOk(sp, l) && Books(sp, l, s, ratio)
    requires ratio > 0.0 && sp.hedgeFactor.Some?
    requires l.frozenDelta == DeltaOn(sp, SizedOn(sp, a, s)) && l.frozenUnit == UnitOn(sp, SizedOn(sp, a, s))
    ensures ratio * HedgePart(sp, OptionQty(sp, l, ratio), l.frozenDelta, l.frozenUnit, s) ==
            if Accrues(sp, s) then HedgeQty(sp, Units(sp, l), SizedOn(sp, a, s + 1)) * PriceMove(sp, s) else 0.0
  {
    hide OptionQty, Units, DeltaHedgeQty, Capture, SizedOn, Accrues, HedgeOn, DeltaOn, UnitOn;
    CaptureStep(sp, l, a, s, ratio);
    OptionQtyUnits(sp, l, ratio);
    if Accrues(sp, s) {
      AccruesOn(sp, s);
      var r := SizedOn(sp, a, s + 1);
      var move := Minus(sp.hedgePrice.value[s + 1], sp.hedgePrice.value[s]);
      HedgeScales(sp.hedgeFactor.value, OptionQty(sp, l, ratio).value, Units(sp, l), DeltaOn(sp, r), UnitOn(sp, r),
                  move, sp.qtyCapMult, ratio);
    }
  }

  lemma AccruesOn(sp: HoldSpec, s: nat)
    requires sp.hedgeActive.Some? ==> s < |sp.hedgeActive.value|
    requires Accrues(sp, s)
    ensures sp.hedgeFactor.Some? && sp.hedgeDelta.Some? && sp.hedgePrice.Some? && HedgeOn(sp, s)
  {}

  /** The quantity of hedges held against leg i over step s of a segment opened on
      bar a, in fractions of the capital. */
  function StepHedge(vec: seq<real>, specs: seq<HoldSpec>, i: nat, a: nat, s: nat): real
    requires AllAligned(specs, |vec|) && i < |specs| && a <= s < |vec| && Compound(vec, specs, a).legs[i].holding
    requires specs[i].hedgeFactor.Some?
  {
    if !Accrues(specs[i], s) then 0.0
    else HedgeQty(specs[i], Units(specs[i], Compound(vec, specs, a).legs[i]), SizedOn(specs[i], a, s + 1))
  }

  /** Over a step of a held segment a leg books its quantity times the move of its
      mark, plus hedges times the move of their price. The hedges take the leg's
      delta off, as of the bar that SizedOn names, and there are none on a step that
      the overlay does not run on. */
  lemma HedgeLaw(vec: seq<real>, specs: seq<HoldSpec>, i: nat, a: nat, s: nat)
    requires AllAligned(specs, |vec|) && i < |specs| && a <= s < |vec|
    requires OneSegment(specs[i], a, s + 1) && Opened(vec, specs, i, a)
    requires specs[i].hedgeFactor.Some?
    requires Compound(vec, specs, a).legs[i].holding && Compound(vec, specs, s).ratio != 0.0
    requires specs[i].isRoll[a] ==> specs[i].rollPremium[a] == Compound(vec, specs, a).legs[i].lastFinite
    ensures var sp, l := specs[i], Compound(vec, specs, a).legs[i];
            var m, h := l.lastFinite.value, StepHedge(vec, specs, i, a, s);
            Compound(vec, specs, s).ratio * HoldContrib(vec, specs, i, s) ==
            Together(Units(sp, l), LastQuote(sp.premium, a, s + 1, m) - LastQuote(sp.premium, a, s, m),
                     h, PriceMove(sp, s))
    ensures var h, r := StepHedge(vec, specs, i, a, s), SizedOn(specs[i], a, s + 1);
            if Accrues(specs[i], s) then
              r.Some? && Hedges(specs[i], h, Units(specs[i], Compound(vec, specs, a).legs[i]), r.value)
            else h == 0.0
  {
    hide Compound, Units, HedgeQty, Book, Accrues, SizedOn, DeltaOn, UnitOn, Hedges, HoldContrib, Capture;
    var sp, l, k := specs[i], Compound(vec, specs, a).legs[i], Compound(vec, specs, s).legs[i];
    SegmentHedge(vec, specs, i, a, s);
    SegmentKept(vec, specs, i, a, s);
    EquityNonNegative(vec, specs, s);
    ContribBooked(vec, specs, i, s);
    SameUnits(sp, l, k);
    LegDollars(sp, k, a, s, Compound(vec, specs, s).ratio, LastQuote(sp.premium, a, s, l.lastFinite.value));
    if Accrues(sp, s) {
      SizedSome(sp, a, s);
      HedgeQtyHedges(sp, Units(sp, l), SizedOn(sp, a, s + 1).value);
    }
  }

  lemma ContribBooked(vec: seq<real>, specs: seq<HoldSpec>, i: nat, s: nat)
    requires AllAligned(specs, |vec|) && i < |specs| && s < |vec| && Compound(vec, specs, s).ratio != 0.0
    ensures var a := Compound(vec, specs, s); HoldContrib(vec, specs, i, s) == Book(specs[i], a.legs[i], s, a.ratio).0
  {
    hide Compound, Book;
    EquityNonNegative(vec, specs, s);
  }

  /** A leg's step in fractions of the capital, off the mark `base`. */
  lemma LegDollars(sp: HoldSpec, l: Leg, a: nat, s: nat, ratio: real, base: real)
    requires Aligned(sp, |sp.premium|) && a <= s && s + 1 < |sp.premium| && LegOk(sp, l) && Books(sp, l, s, ratio)
    requires ratio > 0.0 && sp.hedgeFactor.Some? && Base(sp, l, s) == Some(base)
    requires l.frozenDelta == DeltaOn(sp, SizedOn(sp, a, s)) && l.frozenUnit == UnitOn(sp, SizedOn(sp, a, s))
    ensures var hedge := if Accrues(sp, s) then HedgeQty(sp, Units(sp, l), SizedOn(sp, a, s + 1)) else 0.0;
            var mark := if sp.premium[s + 1].Some? then sp.premium[s + 1].value else base;
            ratio * Book(sp, l, s, ratio).0 == Units(sp, l) * (mark - base) + hedge * PriceMove(sp, s)
  {
    hide Units, OptionContrib, OptionQty, HedgeQty, HedgePart, Book, Accrues, SizedOn, DeltaOn, UnitOn, Base, PriceMove;
    BookParts(sp, l, s, ratio);
    OptionContribDollars(sp, l, s, ratio);
    HedgePartDollars(sp, l, a, s, ratio);
    SumScaled(ratio, OptionContrib(sp, l, s, ratio),
              HedgePart(sp, OptionQty(sp, l, ratio), l.frozenDelta, l.frozenUnit, s));
  }

  lemma SumScaled(k: real, x: real, y: real)
    ensures k * (x + y) == k * x + k * y
  {}

  lemma SizedSome(sp: HoldSpec, a: nat, s: nat)
    requires Aligned(sp, |sp.premium|) && a <= s && s + 1 < |sp.premium| && Accrues(sp, s)
    ensures SizedOn(sp, a, s + 1).Some? && sp.hedgeDelta.Some?
  {}

  /** The option's mark moves by delta·x over step s and the hedge's price by
      unit·x, with the delta the hedge was sized on, within the cap. */
  predicate MovesTogether(sp: HoldSpec, a: nat, s: nat, m: real, x: real)
    requires Aligned(sp, |sp.premium|) && a <= s && s + 1 < |sp.premium| && sp.hedgeFactor.Some?
  {
    var r := SizedOn(sp, a, s + 1);
    && r.Some? && DeltaOn(sp, r).Some? && Usable(UnitOn(sp, r))
    && LastQuote(sp.premium, a, s + 1, m) - LastQuote(sp.premium, a, s, m) == DeltaOn(sp, r).value * x
    && PriceMove(sp, s) == UnitOn(sp, r).value * x
    && AbsReal(sp.hedgeFactor.value) * AbsReal(DeltaOn(sp, r).value) <= sp.qtyCapMult * AbsReal(UnitOn(sp, r).value)
  }

  lemma WithinCap(factor: real, q: real, delta: real, unit: real, cap: real)
    requires AbsReal(factor) * AbsReal(delta) <= cap * AbsReal(unit)
    ensures AbsReal(factor * q * delta) <= (cap * AbsReal(q)) * AbsReal(unit)
  {
    AbsTimes(factor * q, delta);
    AbsTimes(factor, q);
    hide AbsReal;
    var f, d, u, n := AbsReal(factor), AbsReal(delta), AbsReal(unit), AbsReal(q);
    AbsSign(q);
    Scaled(f * d, cap * u, n);
    assert (f * n) * d == (f * d) * n;
    assert (cap * n) * u == (cap * u) * n;
  }

  lemma Scaled(x: real, y: real, n: real)
    requires x <= y && n >= 0.0
    ensures x * n <= y * n
  {
    assert (y - x) * n >= 0.0;
  }

  lemma CapSign(f: real, d: real, cap: real, u: real)
    requires f >= 0.0 && d >= 0.0 && u > 0.0 && f * d <= cap * u
    ensures cap >= 0.0
  {
    assert f * d >= 0.0;
    Ordered(0.0, cap, u);
  }

  lemma Ordered(x: real, y: real, k: real)
    requires k > 0.0 && x * k <= y * k
    ensures x <= y
  {
    Monotone(k, y, x);
  }

  lemma FullOffset(h: real, factor: real, q: real, delta: real, unit: real, cap: real)
    requires Offsets(h, factor, q, delta, unit, cap) && AbsReal(factor) * AbsReal(delta) <= cap * AbsReal(unit)
    requires unit != 0.0
    ensures h * unit + factor * q * delta == 0.0
  {
    AbsSign(factor);
    AbsSign(delta);
    AbsPositive(unit);
    hide AbsReal;
    assert cap >= 0.0 by { CapSign(AbsReal(factor), AbsReal(delta), cap, AbsReal(unit)); }
    WithinCap(factor, q, delta, unit, cap);
  }

  /** The share of the options' move that a hedge of the fraction `factor` leaves. */
  function Unhedged(factor: real, q: real, move: real): real {
    ((1.0 - factor) * q) * move
  }

  lemma LeftUnhedged(q: real, delta: real, unit: real, x: real, h: real, factor: real, move: real, hedgeMove: real)
    requires h * unit + factor * q * delta == 0.0 && move == delta * x && hedgeMove == unit * x
    ensures Together(q, move, h, hedgeMove) == Unhedged(factor, q, move)
  {
    var left := h * unit + factor * q * delta;
    assert left * x == h * (unit * x) + (factor * q) * (delta * x);
  }

  lemma UsableUnit(unit: Num)
    requires Usable(unit)
    ensures unit.value != 0.0
  {}

  lemma HedgeCancels(sp: HoldSpec, h: real, q: real, a: nat, s: nat, m: real, x: real)
    requires Aligned(sp, |sp.premium|) && a <= s && s + 1 < |sp.premium| && sp.hedgeFactor.Some?
    requires sp.hedgeDelta.Some? && MovesTogether(sp, a, s, m, x) && Hedges(sp, h, q, SizedOn(sp, a, s + 1).value)
    ensures var move := LastQuote(sp.premium, a, s + 1, m) - LastQuote(sp.premium, a, s, m);
            Together(q, move, h, PriceMove(sp, s)) == Unhedged(sp.hedgeFactor.value, q, move)
  {
    hide SizedOn, UnitOn, PriceMove, LastQuote, AbsReal, Offsets, Together, Unhedged;
    var r := SizedOn(sp, a, s + 1);
    var delta, unit := DeltaOn(sp, r).value, UnitOn(sp, r).value;
    UsableUnit(UnitOn(sp, r));
    FullOffset(h, sp.hedgeFactor.value, q, delta, unit, sp.qtyCapMult);
    LeftUnhedged(q, delta, unit, x, h, sp.hedgeFactor.value,
                 LastQuote(sp.premium, a, s + 1, m) - LastQuote(sp.premium, a, s, m), PriceMove(sp, s));
  }

  lemma NothingLeft(q: real, d: real, ratio: real, contrib: real)
    requires ratio != 0.0 && ratio * contrib == Unhedged(1.0, q, d)
    ensures contrib == 0.0
  {}

  /** When option and hedge move together, a step books the unhedged fraction of the
      option's move: nothing at all under a full hedge. */
  lemma HedgedStep(vec: seq<real>, specs: seq<HoldSpec>, i: nat, a: nat, s: nat, x: real)
    requires AllAligned(specs, |vec|) && i < |specs| && a <= s < |vec|
    requires OneSegment(specs[i], a, s + 1) && Opened(vec, specs, i, a)
    requires specs[i].hedgeFactor.Some? && Accrues(specs[i], s)
    requires Compound(vec, specs, a).legs[i].holding && Compound(vec, specs, s).ratio != 0.0
    requires specs[i].isRoll[a] ==> specs[i].rollPremium[a] == Compound(vec, specs, a).legs[i].lastFinite
    requires MovesTogether(specs[i], a, s, Compound(vec, specs, a).legs[i].lastFinite.value, x)
    ensures var sp, l := specs[i], Compound(vec, specs, a).legs[i];
            var m := l.lastFinite.value;
            Compound(vec, specs, s).ratio * HoldContrib(vec, specs, i, s) ==
            Unhedged(sp.hedgeFactor.value, Units(sp, l), LastQuote(sp.premium, a, s + 1, m) - LastQuote(sp.premium, a, s, m))
    ensures specs[i].hedgeFactor == Some(1.0) ==> HoldContrib(vec, specs, i, s) == 0.0
  {
    hide Compound, Units, SizedOn, UnitOn, HoldContrib, StepHedge, PriceMove, LastQuote, MovesTogether, DeltaOn, Hedges,
         Together, Unhedged, Accrues;
    var sp, l := specs[i], Compound(vec, specs, a).legs[i];
    HedgeLaw(vec, specs, i, a, s);
    var q, m := Units(sp, l), l.lastFinite.value;
    var d := LastQuote(sp.premium, a, s + 1, m) - LastQuote(sp.premium, a, s, m);
    SizedSome(sp, a, s);
    HedgeCancels(sp, StepHedge(vec, specs, i, a, s), q, a, s, m, x);
    if sp.hedgeFactor == Some(1.0) {
      NothingLeft(q, d, Compound(vec, specs, s).ratio, HoldContrib(vec, specs, i, s));
    }
  }
}
