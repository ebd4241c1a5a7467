/** The same legs run as a plain book: buy a quantity at each open, mark it to the
    last quote every bar, sell it at the quote of the bar that closes it, in dollars.
    The compounded equity ratio is this book's NAV over its capital until the NAV is
    gone, and 0 from then on, exactly as long as the closing steps make nothing: the
    engine does not book them. */
module HoldBook {
  import opened Wrappers
  import opened HoldPnl
  import opened HoldProofs

  // ----- The plain book ----------------------------------------------------

  /** One leg of the book: the units held, if any, the price they were last
      marked at, if there is one, the reference price last sized against, and the
      delta captured at the last hedge rebalance. */
  datatype Lot = Lot(units: Num, mark: Num, fref: Num, frozenDelta: Num, frozenUnit: Num)

  const NO_LOT := Lot(None, None, None, None, None)

  /** The quantity that nav_times of the NAV buys at premium p. */
  function PremiumQty(sp: HoldSpec, nav: real, p: real): real
    requires p != 0.0
  {
    sp.sign * sp.navTimes * nav / p
  }

  /** The quantity, in option dollars per point, that nav_times of the NAV buys of
      the reference future's notional. */
  function FuturesQty(sp: HoldSpec, nav: real, fref: real): real
    requires DenomOk(sp, Some(fref))
  {
    sp.sign * sp.navTimes * nav * sp.multOpt.value / (fref * sp.multFut.value)
  }

  /** Buy at an open with quoted premium p. */
  function Buy(sp: HoldSpec, h: Lot, p: real, fref: Num, nav: real): Lot
    requires p > 0.0
  {
    if !sp.futures then h.(units := Some(PremiumQty(sp, nav, p)), mark := Some(p))
    else if DenomOk(sp, fref) then h.(units := Some(FuturesQty(sp, nav, fref.value)), mark := Some(p), fref := fref)
    else h.(mark := Some(p))
  }

  /** Trade on bar b: sell when inactive, (re)buy at a roll or when flat. A roll
      without a positive open keeps the units, now of the new contract: they are
      marked at its open if that is quoted, and otherwise not yet. */
  function TradeLot(sp: HoldSpec, h: Lot, b: nat, nav: real): Lot
    requires Aligned(sp, |sp.premium|) && b < |sp.premium|
  {
    if !sp.posActive[b] then h.(units := None)
    else if !sp.isRoll[b] && h.units.Some? then h
    else
      var h1 := if sp.hedgeFactor.Some? then h.(frozenDelta := None, frozenUnit := None) else h;
      var open := OpenPremium(sp, b);
      if Positive(open) then Buy(sp, h1, open.value, OpenRef(sp, b, h.fref), nav)
      else if sp.isRoll[b] then h1.(mark := sp.rollPremium[b])
      else h1
  }

  /** Mark the lot over step s: the dollars it makes and its state after. Units
      without a mark make nothing until their first quote. Units held on bar s are
      marked whether or not bar s+1 sells them. */
  function MarkLot(sp: HoldSpec, h: Lot, s: nat): (real, Lot)
    requires Aligned(sp, |sp.premium|) && s + 1 < |sp.premium|
  {
    if h.units.None? || !sp.posActive[s] then (0.0, h)
    else
      var cur, q := sp.premium[s + 1], h.units.value;
      var own := MarkOwn(q, h.mark, cur);
      var h1 := if cur.Some? then h.(mark := cur) else h;
      if !HedgeOn(sp, s) then (own, h1)
      else
        var (delta, unit) := Capture(sp, h.frozenDelta, h.frozenUnit, s);
        var move := Minus(sp.hedgePrice.value[s + 1], sp.hedgePrice.value[s]);
        (own + HedgeStepContrib(sp.hedgeFactor.value, q, delta, unit, move, sp.qtyCapMult),
         h1.(frozenDelta := delta, frozenUnit := unit))
  }

  function MarkOwn(q: real, mark: Num, cur: Num): real {
    if cur.Some? && mark.Some? then q * (cur.value - mark.value) else 0.0
  }

  datatype PlainBook = PlainBook(nav: real, lots: seq<Lot>)

  function Dollars(specs: seq<HoldSpec>, lots: seq<Lot>, s: nat, n: nat, k: nat): real
    requires AllAligned(specs, n) && s < n && k <= |specs| == |lots|
  {
    if k == 0 then 0.0 else Dollars(specs, lots, s, n, k - 1) + MarkLot(specs[k - 1], lots[k - 1], s).0
  }

  /** The book at the start of bar t, run with no regard to ruin. The vectorized
      inputs earn their fraction of the NAV. */
  function Plain(vec: seq<real>, specs: seq<HoldSpec>, capital: real, t: nat): (b: PlainBook)
    requires AllAligned(specs, |vec|) && t <= |vec|
    ensures |b.lots| == |specs|
  {
    if t == 0 then
      PlainBook(capital, seq(|specs|, i requires 0 <= i < |specs| => TradeLot(specs[i], NO_LOT, 0, capital)))
    else
      var b, s := Plain(vec, specs, capital, t - 1), t - 1;
      var nav := b.nav + b.nav * vec[s] + Dollars(specs, b.lots, s, |vec|, |specs|);
      PlainBook(nav, seq(|specs|, i requires 0 <= i < |specs| =>
        TradeLot(specs[i], MarkLot(specs[i], b.lots[i], s).1, t, nav)))
  }

  /** What step s makes on a lot that bar s+1 sells. */
  function Sold(sp: HoldSpec, h: Lot, s: nat): real
    requires Aligned(sp, |sp.premium|) && s + 1 < |sp.premium|
  {
    if sp.posActive[s + 1] then 0.0 else MarkLot(sp, h, s).0
  }

  function AllSold(specs: seq<HoldSpec>, lots: seq<Lot>, s: nat, n: nat, k: nat): real
    requires AllAligned(specs, n) && s < n && k <= |specs| == |lots|
  {
    if k == 0 then 0.0 else AllSold(specs, lots, s, n, k - 1) + Sold(specs[k - 1], lots[k - 1], s)
  }

  // ----- Correspondence ----------------------------------------------------

  /** The quantity a held leg stands for, per unit of starting capital. */
  function Units(sp: HoldSpec, l: Leg): real
    requires LegOk(sp, l) && l.holding
  {
    if sp.futures then FuturesQty(sp, l.segEr, l.segFref.value) else PremiumQty(sp, l.segEr, l.segPremium.value)
  }

  ghost predicate Same(sp: HoldSpec, l: Leg, h: Lot, capital: real)
    requires LegOk(sp, l)
  {
    && (l.holding <==> h.units.Some?) && h.fref == l.segFref
    && (l.holding && sp.hedgeFactor.Some? ==> h.frozenDelta == l.frozenDelta && h.frozenUnit == l.frozenUnit)
    && (l.holding ==> h.units.value == capital * Units(sp, l))
  }

  /** A held leg books its next move from the lot's mark; after a roll with a
      positive open that is also its last finite premium. */
  ghost predicate Anchored(sp: HoldSpec, l: Leg, h: Lot, b: nat)
    requires Aligned(sp, |sp.premium|) && b < |sp.premium|
  {
    l.holding ==>
      && sp.posActive[b] && h.mark == Base(sp, l, b)
      && (sp.isRoll[b] && Positive(sp.rollPremium[b]) ==> l.lastFinite == sp.rollPremium[b])
  }

  /** A roll on bar s leaves no gap to be booked: its open is positive, or the next
      bar is quoted, or the leg does not stay in this contract. */
  predicate SeamOk(sp: HoldSpec, s: nat)
    requires Aligned(sp, |sp.premium|) && s + 1 < |sp.premium|
  {
    sp.isRoll[s] && !Positive(sp.rollPremium[s]) ==>
      sp.premium[s + 1].Some? || !sp.posActive[s + 1] || sp.isRoll[s + 1]
  }

  // ----- Arithmetic --------------------------------------------------------

  /** r·(c·(er/r)·d/p) = (c·er/p)·d */
  lemma FractionDollars(c: real, er: real, r: real, d: real, p: real)
    requires r != 0.0 && p != 0.0
    ensures r * (c * (er / r) * d / p) == (c * er / p) * d
  {
    var k := er / r;
    assert k * r == er;
    var y, u := c * k * d / p, c * er / p;
    assert y * p == c * k * d && u * p == c * er;
    assert (r * y) * p == r * (y * p);
    assert (u * d) * p == (u * p) * d;
    assert r * (c * k * d) == c * (k * r) * d;
    Cancel(r * y, u * d, p);
  }

  lemma ClipScales(x: real, b: real, k: real)
    requires k > 0.0
    ensures Clip(k * x, -(k * b), k * b) == k * Clip(x, -b, b)
  {
    assert k * (-b) == -(k * b);
    Monotone(k, x, -b);
    Monotone(k, x, b);
    Monotone(k, -b, b);
  }

  lemma Monotone(k: real, x: real, y: real)
    requires k > 0.0
    ensures k * x < k * y <==> x < y
  {
    assert k * y - k * x == k * (y - x);
    if x < y { assert k * (y - x) > 0.0; }
    if x > y { assert k * (x - y) > 0.0; assert k * (y - x) == -(k * (x - y)); }
  }

  lemma QuotientScales(k: real, a: real, u: real)
    requires u != 0.0
    ensures (k * a) / u == k * (a / u)
  {
    var q := a / u;
    assert q * u == a;
    Cancel((k * a) / u, k * q, u);
  }

  lemma AbsScales(q: real, k: real)
    requires k > 0.0
    ensures AbsReal(k * q) == k * AbsReal(q)
  {
    Monotone(k, q, 0.0);
  }

  lemma Regroup(a: real, k: real, b: real)
    ensures a * (k * b) == k * (a * b)
  {}

  lemma ClipQuotient(a: real, a': real, u: real, b: real, b': real, k: real)
    requires k > 0.0 && u != 0.0 && a' == k * a && b' == k * b
    ensures Clip(a' / u, -b', b') == k * Clip(a / u, -b, b)
  {
    QuotientScales(k, a, u);
    ClipScales(a / u, b, k);
  }

  lemma HedgedDeltaScales(factor: real, q: real, delta: real, k: real)
    ensures HedgedDelta(factor, k * q, delta) == k * HedgedDelta(factor, q, delta)
  {
    Regroup(-factor, k, q);
    Regroup(delta, k, -factor * q);
  }

  lemma QtyScales(factor: real, q: real, q': real, delta: real, unit: Num, cap: real, k: real)
    requires k > 0.0 && q' == k * q
    ensures DeltaHedgeQty(factor, q', delta, unit, cap) == k * DeltaHedgeQty(factor, q, delta, unit, cap)
  {
    hide Clip, AbsReal, HedgedDelta;
    AbsZero();
    if unit.Some? && AbsReal(unit.value) >= 0.000001 {
      HedgedDeltaScales(factor, q, delta, k);
      AbsScales(q, k);
      Regroup(cap, k, AbsReal(q));
      ClipQuotient(HedgedDelta(factor, q, delta), HedgedDelta(factor, q', delta), unit.value,
                   cap * AbsReal(q), cap * AbsReal(q'), k);
    }
  }

  lemma AbsZero()
    ensures AbsReal(0.0) == 0.0
  {}

  /** The hedge is proportional to the option quantity it is sized off, its guard
      and its cap included. */
  lemma HedgeScales(factor: real, q: real, q': real, delta: Num, unit: Num, move: Num, cap: real, k: real)
    requires k > 0.0 && q' == k * q
    ensures HedgeStepContrib(factor, q', delta, unit, move, cap) ==
            k * HedgeStepContrib(factor, q, delta, unit, move, cap)
  {
    hide DeltaHedgeQty;
    if delta.Some? && move.Some? {
      QtyScales(factor, q, q', delta.value, unit, cap, k);
      Regroup(move.value, k, DeltaHedgeQty(factor, q, delta.value, unit, cap));
    }
  }

  /** r·(option quantity per current equity) is the quantity per starting capital. */
  lemma OptionQtyUnits(sp: HoldSpec, l: Leg, r: real)
    requires LegOk(sp, l) && l.holding && r != 0.0
    ensures OptionQty(sp, l, r).Some? && r * OptionQty(sp, l, r).value == Units(sp, l)
  {
    var c := sp.sign * sp.navTimes;
    if sp.futures {
      var p, m := l.segFref.value * sp.multFut.value, sp.multOpt.value;
      FractionDollars(c, l.segEr, r, m, p);
      QuotientScales(m, c * l.segEr, p);
      assert c * l.segEr * m == m * (c * l.segEr);
    } else {
      FractionDollars(c, l.segEr, r, 1.0, l.segPremium.value);
    }
  }

  /** A booked fraction of equity is units times the premium move, in dollars. */
  lemma OptionContribDollars(sp: HoldSpec, l: Leg, s: nat, r: real)
    requires Aligned(sp, |sp.premium|) && s + 1 < |sp.premium| && LegOk(sp, l) && l.holding && r != 0.0
    ensures var dprem := Minus(sp.premium[s + 1], Base(sp, l, s));
            r * OptionContrib(sp, l, s, r) == if dprem.Some? then Units(sp, l) * dprem.value else 0.0
  {
    var dprem := Minus(sp.premium[s + 1], Base(sp, l, s));
    if dprem.Some? {
      var c, d := sp.sign * sp.navTimes, dprem.value;
      if sp.futures {
        var p, m := l.segFref.value * sp.multFut.value, sp.multOpt.value;
        FractionDollars(c, l.segEr, r, d * m, p);
        QuotientScales(m, c * l.segEr, p);
        assert c * l.segEr * m == m * (c * l.segEr);
        var u := c * l.segEr / p;
        assert u * (d * m) == (m * u) * d;
      } else {
        FractionDollars(c, l.segEr, r, d, l.segPremium.value);
      }
    }
  }

  // ----- One step ----------------------------------------------------------

  lemma OwnMatches(sp: HoldSpec, l: Leg, h: Lot, s: nat, r: real, capital: real)
    requires Aligned(sp, |sp.premium|) && s + 1 < |sp.premium| && LegOk(sp, l) && l.holding && r != 0.0
    requires Same(sp, l, h, capital) && h.mark == Base(sp, l, s)
    ensures capital * (r * OptionContrib(sp, l, s, r)) == MarkOwn(h.units.value, h.mark, sp.premium[s + 1])
  {
    hide OptionContrib, Units;
    OptionContribDollars(sp, l, s, r);
    var u, dprem := Units(sp, l), Minus(sp.premium[s + 1], Base(sp, l, s));
    if dprem.Some? {
      Reassociate(capital, u, dprem.value);
    }
  }

  lemma Reassociate(c: real, u: real, d: real)
    ensures c * (u * d) == (c * u) * d
  {}

  lemma HedgeMatches(sp: HoldSpec, l: Leg, h: Lot, s: nat, r: real, capital: real, delta: Num, unit: Num, move: Num)
    requires LegOk(sp, l) && l.holding && r > 0.0 && capital > 0.0 && Same(sp, l, h, capital) && sp.hedgeFactor.Some?
    ensures OptionQty(sp, l, r).Some?
    ensures HedgeStepContrib(sp.hedgeFactor.value, h.units.value, delta, unit, move, sp.qtyCapMult) ==
            (capital * r) * HedgeStepContrib(sp.hedgeFactor.value, OptionQty(sp, l, r).value, delta, unit, move, sp.qtyCapMult)
  {
    hide OptionQty, HedgeStepContrib, Units;
    OptionQtyUnits(sp, l, r);
    var q := OptionQty(sp, l, r).value;
    assert capital * r > 0.0;
    Reassociate(capital, r, q);
    HedgeScales(sp.hedgeFactor.value, q, h.units.value, delta, unit, move, sp.qtyCapMult, capital * r);
  }

  /** The leg and the lot stay matched over a step that does not sell. */
  lemma BookSame(sp: HoldSpec, l: Leg, h: Lot, s: nat, r: real, capital: real)
    requires Aligned(sp, |sp.premium|) && s + 1 < |sp.premium| && LegOk(sp, l) && r != 0.0
    requires Same(sp, l, h, capital) && (l.holding ==> sp.posActive[s]) && sp.posActive[s + 1]
    ensures Same(sp, Book(sp, l, s, r).1, MarkLot(sp, h, s).1, capital)
  {
    hide OptionContrib, HedgeStepContrib, Units, Capture;
    if Books(sp, l, s, r) {
      OptionQtyUnits(sp, l, r);
      hide OptionQty;
      SameUnits(sp, l, Book(sp, l, s, r).1);
    }
  }

  /** The hedge's part of a step: off the leg's quantity or off the lot's. */
  function HedgePart(sp: HoldSpec, q: Num, frozenDelta: Num, frozenUnit: Num, s: nat): real
    requires Aligned(sp, |sp.premium|) && s + 1 < |sp.premium|
  {
    if !HedgeOn(sp, s) || q.None? then 0.0
    else
      var (delta, unit) := Capture(sp, frozenDelta, frozenUnit, s);
      HedgeStepContrib(sp.hedgeFactor.value, q.value, delta, unit,
                       Minus(sp.hedgePrice.value[s + 1], sp.hedgePrice.value[s]), sp.qtyCapMult)
  }

  lemma BookParts(sp: HoldSpec, l: Leg, s: nat, r: real)
    requires Aligned(sp, |sp.premium|) && s + 1 < |sp.premium| && LegOk(sp, l) && Books(sp, l, s, r)
    ensures Book(sp, l, s, r).0 ==
            OptionContrib(sp, l, s, r) + HedgePart(sp, OptionQty(sp, l, r), l.frozenDelta, l.frozenUnit, s)
  {
    hide OptionContrib, OptionQty, HedgeStepContrib, Capture;
  }

  lemma MarkParts(sp: HoldSpec, h: Lot, s: nat)
    requires Aligned(sp, |sp.premium|) && s + 1 < |sp.premium|
    requires h.units.Some? && sp.posActive[s]
    ensures MarkLot(sp, h, s).0 ==
            MarkOwn(h.units.value, h.mark, sp.premium[s + 1]) + HedgePart(sp, h.units, h.frozenDelta, h.frozenUnit, s)
  {
    hide MarkOwn, HedgeStepContrib, Capture;
  }

  lemma HedgePartMatches(sp: HoldSpec, l: Leg, h: Lot, s: nat, r: real, capital: real)
    requires Aligned(sp, |sp.premium|) && s + 1 < |sp.premium| && LegOk(sp, l) && l.holding
    requires r > 0.0 && capital > 0.0 && Same(sp, l, h, capital)
    ensures HedgePart(sp, h.units, h.frozenDelta, h.frozenUnit, s) ==
            (capital * r) * HedgePart(sp, OptionQty(sp, l, r), l.frozenDelta, l.frozenUnit, s)
  {
    hide OptionQty, HedgeStepContrib, Capture, Units;
    if HedgeOn(sp, s) {
      var (delta, unit) := Capture(sp, l.frozenDelta, l.frozenUnit, s);
      HedgeMatches(sp, l, h, s, r, capital, delta, unit,
                   Minus(sp.hedgePrice.value[s + 1], sp.hedgePrice.value[s]));
    }
  }

  lemma Dollar(capital: real, r: real, own: real, hedge: real, markOwn: real, markHedge: real, book: real, mark: real)
    requires book == own + hedge && mark == markOwn + markHedge
    requires markOwn == capital * (r * own) && markHedge == (capital * r) * hedge
    ensures mark == capital * (r * book)
  {}

  lemma DollarZero(capital: real, r: real, book: real)
    requires book == 0.0
    ensures capital * (r * book) == 0.0
  {}

  lemma BookDollars(sp: HoldSpec, l: Leg, h: Lot, s: nat, r: real, capital: real)
    requires Aligned(sp, |sp.premium|) && s + 1 < |sp.premium| && LegOk(sp, l) && Books(sp, l, s, r)
    requires r > 0.0 && capital > 0.0 && Same(sp, l, h, capital) && h.mark == Base(sp, l, s)
    ensures MarkLot(sp, h, s).0 == capital * (r * Book(sp, l, s, r).0)
  {
    hide OptionContrib, OptionQty, Units, MarkOwn, HedgePart, Book, MarkLot, Base;
    OwnMatches(sp, l, h, s, r, capital);
    HedgePartMatches(sp, l, h, s, r, capital);
    BookParts(sp, l, s, r);
    MarkParts(sp, h, s);
    Dollar(capital, r, OptionContrib(sp, l, s, r), HedgePart(sp, OptionQty(sp, l, r), l.frozenDelta, l.frozenUnit, s),
           MarkOwn(h.units.value, h.mark, sp.premium[s + 1]), HedgePart(sp, h.units, h.frozenDelta, h.frozenUnit, s),
           Book(sp, l, s, r).0, MarkLot(sp, h, s).0);
  }

  /** What is booked over a step matches what marking the lot makes, in dollars,
      except for what the lot makes on being sold. */
  lemma BookMatches(sp: HoldSpec, l: Leg, h: Lot, s: nat, r: real, capital: real)
    requires Aligned(sp, |sp.premium|) && s + 1 < |sp.premium| && LegOk(sp, l)
    requires r > 0.0 && capital > 0.0 && Same(sp, l, h, capital) && Anchored(sp, l, h, s)
    ensures MarkLot(sp, h, s).0 - Sold(sp, h, s) == capital * (r * Book(sp, l, s, r).0)
  {
    hide OptionContrib, OptionQty, HedgeStepContrib, Units, Capture, MarkOwn, Base;
    if Books(sp, l, s, r) {
      hide Book, MarkLot;
      BookDollars(sp, l, h, s, r, capital);
    } else {
      DollarZero(capital, r, Book(sp, l, s, r).0);
    }
  }

  lemma SameUnits(sp: HoldSpec, l: Leg, l': Leg)
    requires LegOk(sp, l) && LegOk(sp, l') && l.holding && l'.holding
    requires l'.segEr == l.segEr && if sp.futures then l'.segFref == l.segFref else l'.segPremium == l.segPremium
    ensures Units(sp, l) == Units(sp, l')
  {}

  lemma BuyUnits(sp: HoldSpec, r: real, nav: real, capital: real, p: real, fref: Num)
    requires p > 0.0 && nav == capital * r
    ensures PremiumQty(sp, nav, p) == capital * PremiumQty(sp, r, p)
    ensures DenomOk(sp, fref) ==> FuturesQty(sp, nav, fref.value) == capital * FuturesQty(sp, r, fref.value)
  {
    var c := sp.sign * sp.navTimes;
    assert c * (capital * r) == capital * (c * r);
    QuotientScales(capital, c * r, p);
    if DenomOk(sp, fref) {
      var m := sp.multOpt.value;
      assert c * (capital * r) * m == capital * (c * r * m);
      QuotientScales(capital, c * r * m, fref.value * sp.multFut.value);
    }
  }

  /** A quoted open matches a purchase. */
  lemma OpenMatches(sp: HoldSpec, l: Leg, h: Lot, b: nat, r: real, nav: real, capital: real)
    requires Aligned(sp, |sp.premium|) && b < |sp.premium| && LegOk(sp, l)
    requires r > 0.0 && nav == capital * r && Same(sp, l, h, capital)
    requires sp.posActive[b] && (sp.isRoll[b] || !l.holding) && Positive(OpenPremium(sp, b))
    ensures Same(sp, Resize(sp, l, b, r), TradeLot(sp, h, b, nav), capital)
  {
    hide PremiumQty, FuturesQty, OpenPremium, OpenRef;
    var open, fref := OpenPremium(sp, b), OpenRef(sp, b, l.segFref);
    BuyUnits(sp, r, nav, capital, open.value, fref);
  }

  /** Resizing matches trading the lot. */
  lemma ResizeMatches(sp: HoldSpec, l: Leg, h: Lot, b: nat, r: real, nav: real, capital: real)
    requires Aligned(sp, |sp.premium|) && b < |sp.premium| && LegOk(sp, l)
    requires r > 0.0 && nav == capital * r && Same(sp, l, h, capital)
    requires l.holding && sp.posActive[b] && !sp.isRoll[b] ==> h.mark == l.lastFinite
    ensures Same(sp, Resize(sp, l, b, r), TradeLot(sp, h, b, nav), capital)
    ensures Anchored(sp, Resize(sp, l, b, r), TradeLot(sp, h, b, nav), b)
  {
    hide OpenRef, FuturesQty, PremiumQty;
    if sp.posActive[b] && (sp.isRoll[b] || !l.holding) && Positive(OpenPremium(sp, b)) {
      OpenMatches(sp, l, h, b, r, nav, capital);
    }
  }

  /** Unless a roll left a gap open, the mark is the last finite premium again one
      bar later. */
  lemma MarkRecovers(sp: HoldSpec, l: Leg, h: Lot, s: nat, r: real, capital: real)
    requires Aligned(sp, |sp.premium|) && s + 1 < |sp.premium| && LegOk(sp, l) && r > 0.0
    requires Same(sp, l, h, capital) && Anchored(sp, l, h, s) && (l.holding ==> SeamOk(sp, s))
    ensures var l', h' := Book(sp, l, s, r).1, MarkLot(sp, h, s).1;
            l'.holding && sp.posActive[s + 1] && !sp.isRoll[s + 1] ==> h'.mark == l'.lastFinite
  {
    hide OptionContrib, OptionQty, HedgeStepContrib, Units, Capture;
  }

  /** One leg through a whole step, trading included. */
  lemma LegStep(sp: HoldSpec, l: Leg, h: Lot, s: nat, r: real, r': real, nav': real, capital: real)
    requires Aligned(sp, |sp.premium|) && s + 1 < |sp.premium| && LegOk(sp, l) && r > 0.0
    requires Same(sp, l, h, capital) && Anchored(sp, l, h, s) && (h.units.Some? ==> SeamOk(sp, s))
    requires r' > 0.0 && nav' == capital * r'
    ensures var l', h' := Resize(sp, Book(sp, l, s, r).1, s + 1, r'), TradeLot(sp, MarkLot(sp, h, s).1, s + 1, nav');
            Same(sp, l', h', capital) && Anchored(sp, l', h', s + 1)
  {
    if sp.posActive[s + 1] {
      BookSame(sp, l, h, s, r, capital);
      MarkRecovers(sp, l, h, s, r, capital);
      hide Book, MarkLot, Resize, TradeLot;
      ResizeMatches(sp, Book(sp, l, s, r).1, MarkLot(sp, h, s).1, s + 1, r', nav', capital);
    } else {
      hide OptionContrib, OptionQty, HedgeStepContrib, Units, Capture, MarkOwn, Base;
    }
  }

  // ----- Whole runs --------------------------------------------------------

  /** No leg that the book holds, while it is solvent, is left with a gap by a roll
      on a bar before t. */
  ghost predicate NoGaps(vec: seq<real>, specs: seq<HoldSpec>, capital: real, t: nat)
    requires AllAligned(specs, |vec|) && t <= |vec|
  {
    forall s: nat, i: nat ::
      s < t && i < |specs| && Solvent(vec, specs, capital, s) && Plain(vec, specs, capital, s).lots[i].units.Some? ==>
        SeamOk(specs[i], s)
  }

  /** What step s makes on the lots that bar s+1 sells. */
  function SoldAt(vec: seq<real>, specs: seq<HoldSpec>, capital: real, s: nat): real
    requires AllAligned(specs, |vec|) && s < |vec|
  {
    AllSold(specs, Plain(vec, specs, capital, s).lots, s, |vec|, |specs|)
  }

  /** The lots that bar s+1 sells make nothing in all, or else the book is ruined by
      that bar with or without them. */
  predicate ClosesQuietly(vec: seq<real>, specs: seq<HoldSpec>, capital: real, s: nat)
    requires AllAligned(specs, |vec|) && s < |vec|
  {
    var nav, sold := Plain(vec, specs, capital, s + 1).nav, SoldAt(vec, specs, capital, s);
    sold == 0.0 || (nav <= 0.0 && nav - sold <= 0.0)
  }

  ghost predicate QuietCloses(vec: seq<real>, specs: seq<HoldSpec>, capital: real, t: nat)
    requires AllAligned(specs, |vec|) && t <= |vec|
  {
    forall s: nat :: s < t && Solvent(vec, specs, capital, s) ==> ClosesQuietly(vec, specs, capital, s)
  }

  ghost predicate Agrees(specs: seq<HoldSpec>, a: Account, b: PlainBook, n: nat, t: nat, capital: real)
    requires AllAligned(specs, n) && AccountOk(specs, a) && |b.lots| == |specs| && t <= n
  {
    && a.ratio > 0.0 && !a.wiped && b.nav == capital * a.ratio
    && forall i :: 0 <= i < |specs| ==>
         Same(specs[i], a.legs[i], b.lots[i], capital) && Anchored(specs[i], a.legs[i], b.lots[i], t)
  }

  lemma {:induction false} DollarsMatch(vec: seq<real>, specs: seq<HoldSpec>, a: Account, b: PlainBook,
                                        s: nat, k: nat, capital: real)
    requires AllAligned(specs, |vec|) && AccountOk(specs, a) && |b.lots| == |specs|
    requires s < |vec| && k <= |specs| && capital > 0.0 && Agrees(specs, a, b, |vec|, s, capital)
    ensures b.nav * vec[s] + Dollars(specs, b.lots, s, |vec|, k) - AllSold(specs, b.lots, s, |vec|, k) ==
            capital * (a.ratio * Net(vec[s], specs, a, s, |vec|, k))
  {
    hide Same, Anchored, Book, MarkLot, Sold;
    if k == 0 {
      assert b.nav * vec[s] == capital * (a.ratio * vec[s]);
    } else {
      DollarsMatch(vec, specs, a, b, s, k - 1, capital);
      BookMatches(specs[k - 1], a.legs[k - 1], b.lots[k - 1], s, a.ratio, capital);
      var x, y := Net(vec[s], specs, a, s, |vec|, k - 1), Book(specs[k - 1], a.legs[k - 1], s, a.ratio).0;
      assert capital * (a.ratio * (x + y)) == capital * (a.ratio * x) + capital * (a.ratio * y);
    }
  }

  /** The engine's next equity is the book's next NAV less what was sold. */
  lemma BookNav(vec: seq<real>, specs: seq<HoldSpec>, s: nat, capital: real)
    requires AllAligned(specs, |vec|) && s < |vec| && capital > 0.0
    requires Agrees(specs, Compound(vec, specs, s), Plain(vec, specs, capital, s), |vec|, s, capital)
    ensures var a', nav' := Compound(vec, specs, s + 1),
                            Plain(vec, specs, capital, s + 1).nav - SoldAt(vec, specs, capital, s);
            if nav' > 0.0 then a'.ratio > 0.0 && !a'.wiped && nav' == capital * a'.ratio else a'.ratio == 0.0
  {
    hide Same, Anchored, Book, MarkLot, Resize, TradeLot, Net, Dollars, AllSold, Compound, Grow, LossCap;
    var a, b := Compound(vec, specs, s), Plain(vec, specs, capital, s);
    CompoundStep(vec, specs, s);
    DollarsMatch(vec, specs, a, b, s, |specs|, capital);
    PlainNav(vec, specs, s, capital);
    hide Plain, Agrees;
    NavGrows(capital, a.ratio, NetStep(vec, specs, s), b.nav,
             Plain(vec, specs, capital, s + 1).nav - SoldAt(vec, specs, capital, s));
  }

  lemma PlainNav(vec: seq<real>, specs: seq<HoldSpec>, s: nat, capital: real)
    requires AllAligned(specs, |vec|) && s < |vec|
    ensures var b := Plain(vec, specs, capital, s);
            Plain(vec, specs, capital, s + 1).nav == b.nav + (b.nav * vec[s] + Dollars(specs, b.lots, s, |vec|, |specs|))
  {
    hide Dollars, MarkLot, TradeLot;
  }

  lemma BookStep(vec: seq<real>, specs: seq<HoldSpec>, s: nat, capital: real)
    requires AllAligned(specs, |vec|) && s < |vec| && capital > 0.0
    requires Agrees(specs, Compound(vec, specs, s), Plain(vec, specs, capital, s), |vec|, s, capital)
    requires forall i :: 0 <= i < |specs| && Plain(vec, specs, capital, s).lots[i].units.Some? ==> SeamOk(specs[i], s)
    requires SoldAt(vec, specs, capital, s) == 0.0 && Plain(vec, specs, capital, s + 1).nav > 0.0
    ensures Agrees(specs, Compound(vec, specs, s + 1), Plain(vec, specs, capital, s + 1), |vec|, s + 1, capital)
  {
    hide Same, Anchored, Book, MarkLot, Resize, TradeLot, Net, Dollars, SoldAt, Compound, Grow, LossCap, SeamOk;
    BookNav(vec, specs, s, capital);
    CompoundStep(vec, specs, s);
    var a, b := Compound(vec, specs, s), Plain(vec, specs, capital, s);
    var a', b' := Compound(vec, specs, s + 1), Plain(vec, specs, capital, s + 1);
    forall i | 0 <= i < |specs|
      ensures Same(specs[i], a'.legs[i], b'.lots[i], capital) && Anchored(specs[i], a'.legs[i], b'.lots[i], s + 1)
    {
      LegStep(specs[i], a.legs[i], b.lots[i], s, a.ratio, a'.ratio, b'.nav, capital);
      assert b'.lots[i] == TradeLot(specs[i], MarkLot(specs[i], b.lots[i], s).1, s + 1, b'.nav);
    }
  }

  lemma NavGrows(capital: real, r: real, net: real, nav: real, nav': real)
    requires capital > 0.0 && r > 0.0 && nav == capital * r && nav' == nav + capital * (r * net)
    ensures if nav' > 0.0 then Grow(r, net) > 0.0 && nav' == capital * Grow(r, net) && 1.0 + net > 0.0
            else Grow(r, net) == 0.0
  {
    var f := 1.0 + net;
    assert nav' == (capital * r) * f;
    assert capital * r > 0.0;
    if f > 0.0 { assert (capital * r) * f > 0.0; assert r * f > 0.0; }
    if f <= 0.0 { assert (capital * r) * (-f) >= 0.0; }
  }

  /** The book's NAV has been positive on every bar up to t. */
  ghost predicate Solvent(vec: seq<real>, specs: seq<HoldSpec>, capital: real, t: nat)
    requires AllAligned(specs, |vec|) && t <= |vec|
  {
    forall u: nat :: u <= t ==> Plain(vec, specs, capital, u).nav > 0.0
  }

  lemma NoGapsBefore(vec: seq<real>, specs: seq<HoldSpec>, capital: real, t: nat, s: nat)
    requires AllAligned(specs, |vec|) && s < t <= |vec|
    requires NoGaps(vec, specs, capital, t) && Solvent(vec, specs, capital, s)
    ensures NoGaps(vec, specs, capital, s)
    ensures forall i :: 0 <= i < |specs| && Plain(vec, specs, capital, s).lots[i].units.Some? ==> SeamOk(specs[i], s)
  {
    hide Plain, SeamOk;
  }

  lemma {:induction false} SolventAgrees(vec: seq<real>, specs: seq<HoldSpec>, capital: real, t: nat)
    requires AllAligned(specs, |vec|) && t <= |vec| && capital > 0.0
    requires NoGaps(vec, specs, capital, t) && QuietCloses(vec, specs, capital, t) && Solvent(vec, specs, capital, t)
    ensures Agrees(specs, Compound(vec, specs, t), Plain(vec, specs, capital, t), |vec|, t, capital)
  {
    hide Compound, Plain, Agrees, LegOk, Aligned, SeamOk, NoGaps, SoldAt;
    if t == 0 {
      SeedsMatch(vec, specs, capital);
    } else {
      assert Solvent(vec, specs, capital, t - 1);
      NoGapsBefore(vec, specs, capital, t, t - 1);
      SolventAgrees(vec, specs, capital, t - 1);
      assert ClosesQuietly(vec, specs, capital, t - 1);
      BookStep(vec, specs, t - 1, capital);
    }
  }

  lemma SeedsMatch(vec: seq<real>, specs: seq<HoldSpec>, capital: real)
    requires AllAligned(specs, |vec|) && capital > 0.0
    ensures Agrees(specs, Compound(vec, specs, 0), Plain(vec, specs, capital, 0), |vec|, 0, capital)
  {
    hide PremiumQty, FuturesQty, OpenRef;
    CompoundStart(vec, specs);
    forall i | 0 <= i < |specs|
      ensures Same(specs[i], Seed(specs[i]), TradeLot(specs[i], NO_LOT, 0, capital), capital)
      ensures Anchored(specs[i], Seed(specs[i]), TradeLot(specs[i], NO_LOT, 0, capital), 0)
    {
      var open := OpenPremium(specs[i], 0);
      if Positive(open) {
        BuyUnits(specs[i], 1.0, capital, capital, open.value, OpenRef(specs[i], 0, None));
      }
    }
  }

  /** The equity of the book: its NAV as long as that has stayed positive, and 0
      afterwards. */
  ghost function BookEquity(vec: seq<real>, specs: seq<HoldSpec>, capital: real, t: nat): real
    requires AllAligned(specs, |vec|) && t <= |vec|
  {
    if Solvent(vec, specs, capital, t) then Plain(vec, specs, capital, t).nav else 0.0
  }

  ghost predicate IsBook(vec: seq<real>, specs: seq<HoldSpec>, capital: real, t: nat)
    requires AllAligned(specs, |vec|) && t <= |vec|
  {
    forall u: nat :: u <= t ==> capital * Compound(vec, specs, u).ratio == BookEquity(vec, specs, capital, u)
  }

  /** Fixed-contract P&L is the plain quantity book, hedge included, for any mix of
      legs and any starting capital, ruin included, on all bars up to t exactly when
      the lots that it sells up to then make nothing on the steps that sell them. */
  lemma HoldIsPlainBook(vec: seq<real>, specs: seq<HoldSpec>, capital: real, t: nat)
    requires AllAligned(specs, |vec|) && t <= |vec| && capital > 0.0 && NoGaps(vec, specs, capital, t)
    ensures IsBook(vec, specs, capital, t) <==> QuietCloses(vec, specs, capital, t)
  {
    hide Compound, BookEquity, ClosesQuietly, NoGaps, Solvent;
    if QuietCloses(vec, specs, capital, t) {
      forall u: nat | u <= t ensures capital * Compound(vec, specs, u).ratio == BookEquity(vec, specs, capital, u) {
        NoGapsUpTo(vec, specs, capital, t, u);
        QuietIsBook(vec, specs, capital, u);
      }
    }
    if IsBook(vec, specs, capital, t) {
      BookIsQuiet(vec, specs, capital, t);
    }
  }

  lemma NoGapsUpTo(vec: seq<real>, specs: seq<HoldSpec>, capital: real, t: nat, s: nat)
    requires AllAligned(specs, |vec|) && s <= t <= |vec| && NoGaps(vec, specs, capital, t)
    ensures NoGaps(vec, specs, capital, s)
  {
    hide Plain, SeamOk, Solvent;
  }

  lemma QuietIsBook(vec: seq<real>, specs: seq<HoldSpec>, capital: real, t: nat)
    requires AllAligned(specs, |vec|) && t <= |vec| && capital > 0.0
    requires NoGaps(vec, specs, capital, t) && QuietCloses(vec, specs, capital, t)
    ensures capital * Compound(vec, specs, t).ratio == BookEquity(vec, specs, capital, t)
  {
    hide Compound, Plain, NoGaps, SeamOk, SoldAt;
    if Solvent(vec, specs, capital, t) {
      SolventAgrees(vec, specs, capital, t);
    } else {
      hide Agrees;
      var u := FirstInsolvent(vec, specs, capital, t);
      NoGapsUpTo(vec, specs, capital, t, u - 1);
      SolventAgrees(vec, specs, capital, u - 1);
      assert ClosesQuietly(vec, specs, capital, u - 1);
      BookNav(vec, specs, u - 1, capital);
      RuinAbsorbs(vec, specs, u, t);
    }
  }

  lemma {:induction false} BookIsQuiet(vec: seq<real>, specs: seq<HoldSpec>, capital: real, t: nat)
    requires AllAligned(specs, |vec|) && t <= |vec| && capital > 0.0
    requires NoGaps(vec, specs, capital, t) && IsBook(vec, specs, capital, t)
    ensures QuietCloses(vec, specs, capital, t)
  {
    hide Compound, Plain, NoGaps, SoldAt, Agrees;
    if t > 0 {
      NoGapsUpTo(vec, specs, capital, t, t - 1);
      BookIsQuiet(vec, specs, capital, t - 1);
      if Solvent(vec, specs, capital, t - 1) {
        SolventAgrees(vec, specs, capital, t - 1);
        BookNav(vec, specs, t - 1, capital);
        assert capital * Compound(vec, specs, t).ratio == BookEquity(vec, specs, capital, t);
        assert Solvent(vec, specs, capital, t) <==> Plain(vec, specs, capital, t).nav > 0.0;
        assert ClosesQuietly(vec, specs, capital, t - 1);
      }
    }
  }

  lemma {:induction false} FirstInsolvent(vec: seq<real>, specs: seq<HoldSpec>, capital: real, t: nat)
    returns (u: nat)
    requires AllAligned(specs, |vec|) && t <= |vec| && capital > 0.0 && !Solvent(vec, specs, capital, t)
    ensures 0 < u <= t && Solvent(vec, specs, capital, u - 1) && Plain(vec, specs, capital, u).nav <= 0.0
  {
    if t > 0 && !Solvent(vec, specs, capital, t - 1) {
      u := FirstInsolvent(vec, specs, capital, t - 1);
    } else {
      u := t;
      assert Plain(vec, specs, capital, 0).nav == capital;
    }
  }
}
