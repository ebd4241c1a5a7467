/** The notional fractions that held option legs are billed on, replayed without
    the equity, and how they keep in step with the P&L. */
module HoldCosts {
  import opened Wrappers
  import opened HoldPnl
  import opened HoldProofs
  import opened HoldBook

  // ----- The replay --------------------------------------------------------

  /** The part of a leg's state that its traded premium notional depends on. */
  datatype Replay = Replay(holding: bool, segPremium: Num, segFref: Num)

  predicate ReplayOk(sp: HoldSpec, r: Replay) {
    && (r.segPremium.Some? ==> r.segPremium.value > 0.0)
    && (r.segFref.Some? ==> DenomOk(sp, r.segFref))
    && (r.holding ==> r.segPremium.Some? && r.segFref.Some?)
  }

  function ReplaySeed(sp: HoldSpec): (r: Replay)
    requires Aligned(sp, |sp.premium|) && |sp.premium| > 0
    ensures ReplayOk(sp, r)
  {
    var open, fref := OpenPremium(sp, 0), OpenRef(sp, 0, None);
    if sp.posActive[0] && Positive(open) && DenomOk(sp, fref) then Replay(true, open, fref)
    else Replay(false, None, None)
  }

  function ReplayStep(sp: HoldSpec, r: Replay, b: nat): (r': Replay)
    requires Aligned(sp, |sp.premium|) && b < |sp.premium| && ReplayOk(sp, r)
    ensures ReplayOk(sp, r')
  {
    var open, fref := OpenPremium(sp, b), OpenRef(sp, b, r.segFref);
    if !sp.posActive[b] then r.(holding := false)
    else if !(sp.isRoll[b] || !r.holding) || !Positive(open) then r
    else if DenomOk(sp, fref) then Replay(true, open, fref)
    else r.(segPremium := open)
  }

  function ReplayAt(sp: HoldSpec, b: nat): (r: Replay)
    requires Aligned(sp, |sp.premium|) && b < |sp.premium|
    ensures ReplayOk(sp, r)
  {
    if b == 0 then ReplaySeed(sp) else ReplayStep(sp, ReplayAt(sp, b - 1), b)
  }

  /** The premium notional of a held segment, as a fraction of equity. */
  function Fraction(sp: HoldSpec, r: Replay): real
    requires ReplayOk(sp, r)
  {
    if !r.holding then 0.0
    else AbsReal(sp.navTimes) * r.segPremium.value * sp.multOpt.value / (r.segFref.value * sp.multFut.value)
  }

  lemma FlatFraction(sp: HoldSpec)
    ensures forall r :: ReplayOk(sp, r) && !r.holding ==> Fraction(sp, r) == 0.0
  {}

  method NotionalFractions(sp: HoldSpec) returns (frac: array<real>)
    requires Aligned(sp, |sp.premium|)
    ensures frac.Length == |sp.premium|
    ensures !sp.futures ==>
              forall b :: 0 <= b < frac.Length ==> frac[b] == if sp.posActive[b] then AbsReal(sp.navTimes) else 0.0
    ensures sp.futures ==> forall b :: 0 <= b < frac.Length ==> frac[b] == Fraction(sp, ReplayAt(sp, b))
    ensures sp.futures ==> forall b :: 0 <= b < frac.Length && !ReplayAt(sp, b).holding ==> frac[b] == 0.0
  {
    hide Fraction, ReplayStep, ReplaySeed, ReplayOk, AbsReal;
    FlatFraction(sp);
    var T := |sp.premium|;
    frac := new real[T];
    if !sp.futures {
      for b := 0 to T
        invariant forall u :: 0 <= u < b ==> frac[u] == if sp.posActive[u] then AbsReal(sp.navTimes) else 0.0
      {
        frac[b] := if sp.posActive[b] then AbsReal(sp.navTimes) else 0.0;
      }
      return;
    }
    if T == 0 {
      return;
    }
    var r := ReplaySeed(sp);
    frac[0] := Fraction(sp, r);
    for b := 1 to T
      invariant r == ReplayAt(sp, b - 1)
      invariant forall u :: 0 <= u < b ==> frac[u] == Fraction(sp, ReplayAt(sp, u))
    {
      r := ReplayStep(sp, r, b);
      frac[b] := Fraction(sp, r);
    }
  }

  // ----- Replay and recurrence in step -------------------------------------

  function Shadow(l: Leg): Replay {
    Replay(l.holding, l.segPremium, l.segFref)
  }

  lemma BookKeepsSizing(sp: HoldSpec, l: Leg, s: nat, r: real)
    requires Aligned(sp, |sp.premium|) && s + 1 < |sp.premium| && LegOk(sp, l)
    ensures Shadow(Book(sp, l, s, r).1) == Shadow(l) && Book(sp, l, s, r).1.segEr == l.segEr
  {}

  /** Until ruin, the replay that cost billing uses holds the same segment state
      as the P&L recurrence, bar by bar. */
  lemma {:induction false} ReplayInStep(vec: seq<real>, specs: seq<HoldSpec>, i: nat, b: nat)
    requires AllAligned(specs, |vec|) && i < |specs| && b <= |vec|
    requires specs[i].futures && Compound(vec, specs, b).ratio != 0.0
    ensures Shadow(Compound(vec, specs, b).legs[i]) == ReplayAt(specs[i], b)
  {
    hide Compound, Book, OpenRef, DenomOk;
    if b == 0 {
      CompoundStart(vec, specs);
    } else {
      if Compound(vec, specs, b - 1).ratio == 0.0 {
        RuinAbsorbs(vec, specs, b - 1, b);
      }
      ReplayInStep(vec, specs, i, b - 1);
      EquityNonNegative(vec, specs, b - 1);
      CompoundStep(vec, specs, b - 1);
      BookKeepsSizing(specs[i], Compound(vec, specs, b - 1).legs[i], b - 1, Compound(vec, specs, b - 1).ratio);
    }
  }

  lemma AbsQuotient(x: real, p: real)
    requires p > 0.0
    ensures AbsReal(x / p) == AbsReal(x) / p
  {
    assert (x / p) * p == x;
    if x < 0.0 {
      assert x / p < 0.0;
    }
  }

  lemma AbsProducts(s: real, n: real, e: real, m: real)
    requires AbsReal(s) == 1.0 && m > 0.0
    ensures AbsReal(s * n * e * m) == AbsReal(n) * AbsReal(e) * m
  {
    AbsTimes(s, n);
    AbsTimes(s * n, e);
    AbsTimes(s * n * e, m);
  }

  lemma AbsUnits(sp: HoldSpec, nav: real, fref: real)
    requires DenomOk(sp, Some(fref)) && AbsReal(sp.sign) == 1.0
    ensures AbsReal(FuturesQty(sp, nav, fref)) ==
            AbsReal(sp.navTimes) * AbsReal(nav) * sp.multOpt.value / (fref * sp.multFut.value)
  {
    hide AbsReal;
    assert fref * sp.multFut.value > 0.0;
    AbsQuotient(sp.sign * sp.navTimes * nav * sp.multOpt.value, fref * sp.multFut.value);
    AbsProducts(sp.sign, sp.navTimes, nav, sp.multOpt.value);
  }

  /** The fraction times the equity the segment was sized at is the premium value
      of the quantity held. */
  lemma FractionIsQuantity(sp: HoldSpec, l: Leg)
    requires LegOk(sp, l) && l.holding && sp.futures && AbsReal(sp.sign) == 1.0
    ensures Fraction(sp, Shadow(l)) * AbsReal(l.segEr) == AbsReal(Units(sp, l)) * l.segPremium.value
  {
    hide AbsReal, FuturesQty;
    assert l.segFref.value * sp.multFut.value > 0.0;
    AbsUnits(sp, l.segEr, l.segFref.value);
    Swap(AbsReal(sp.navTimes), AbsReal(l.segEr), l.segPremium.value, sp.multOpt.value, l.segFref.value * sp.multFut.value);
  }

  lemma Swap(n: real, e: real, q: real, m: real, p: real)
    requires p != 0.0
    ensures (n * q * m / p) * e == (n * e * m / p) * q
  {
    var x, y := n * q * m / p, n * e * m / p;
    assert x * p == n * q * m && y * p == n * e * m;
    ThreeWay(n, e, m, q, x, y, p);
  }

  lemma ThreeWay(n: real, e: real, m: real, q: real, x: real, y: real, p: real)
    requires p != 0.0 && x * p == n * q * m && y * p == n * e * m
    ensures x * e == y * q
  {
    assert (x * e) * p == (x * p) * e;
    assert (y * q) * p == (y * p) * q;
    assert n * q * m * e == n * e * m * q;
    Cancel(x * e, y * q, p);
  }

  lemma FractionOfOpen(sp: HoldSpec, l: Leg, r: Replay, e: real, open: real)
    requires LegOk(sp, l) && l.holding && sp.futures && AbsReal(sp.sign) == 1.0 && r == Shadow(l)
    requires ReplayOk(sp, r) && e >= 0.0 && l.segEr == e && l.segPremium == Some(open)
    ensures Fraction(sp, r) * e == AbsReal(Units(sp, l)) * open
  {
    hide Fraction, Units;
    FractionIsQuantity(sp, l);
  }

  /** The leg on arrival at bar b: nothing before the first. */
  function ReplayBefore(sp: HoldSpec, b: nat): (r: Replay)
    requires Aligned(sp, |sp.premium|) && b < |sp.premium|
    ensures ReplayOk(sp, r)
  {
    if b == 0 then Replay(false, None, None) else ReplayAt(sp, b - 1)
  }

  /** Bar b sizes the leg: it is active, flat or rolled, at a positive open and a
      usable reference price. */
  predicate Sizes(sp: HoldSpec, b: nat)
    requires Aligned(sp, |sp.premium|) && b < |sp.premium|
  {
    && sp.posActive[b] && (sp.isRoll[b] || !ReplayBefore(sp, b).holding) && Positive(OpenPremium(sp, b))
    && DenomOk(sp, OpenRef(sp, b, ReplayBefore(sp, b).segFref))
  }

  /** At any bar that sizes the leg before ruin, the billed fraction times the
      equity of that bar is the quantity bought times the open premium. */
  lemma OpeningFraction(vec: seq<real>, specs: seq<HoldSpec>, i: nat, b: nat)
    requires AllAligned(specs, |vec|) && i < |specs| && b <= |vec|
    requires specs[i].futures && AbsReal(specs[i].sign) == 1.0 && Compound(vec, specs, b).ratio != 0.0
    requires Sizes(specs[i], b)
    ensures var sp, a := specs[i], Compound(vec, specs, b);
            && a.legs[i].holding && a.legs[i].segEr == a.ratio
            && Fraction(sp, ReplayAt(sp, b)) * a.ratio == AbsReal(Units(sp, a.legs[i])) * OpenPremium(sp, b).value
  {
    hide Compound, Units, Fraction, Sizes, ReplayAt, Shadow, ReplayOk, AbsReal, LegOk, Positive, OpenPremium;
    OpeningLeg(vec, specs, i, b);
    SizesAtQuote(specs[i], b);
    ReplayInStep(vec, specs, i, b);
    EquityNonNegative(vec, specs, b);
    FractionOfOpen(specs[i], Compound(vec, specs, b).legs[i], ReplayAt(specs[i], b), Compound(vec, specs, b).ratio,
                   OpenPremium(specs[i], b).value);
  }

  lemma SizesAtQuote(sp: HoldSpec, b: nat)
    requires Aligned(sp, |sp.premium|) && b < |sp.premium| && Sizes(sp, b)
    ensures OpenPremium(sp, b).Some?
  {}

  lemma SeedOpens(sp: HoldSpec)
    requires Aligned(sp, |sp.premium|) && |sp.premium| > 0 && sp.futures && Sizes(sp, 0)
    ensures var l := Seed(sp); l.holding && l.segEr == 1.0 && l.segPremium == OpenPremium(sp, 0)
  {
    hide OpenRef, DenomOk;
  }

  lemma ResizeOpens(sp: HoldSpec, l: Leg, b: nat, r: real)
    requires Aligned(sp, |sp.premium|) && b < |sp.premium| && LegOk(sp, l) && r != 0.0
    requires sp.futures && Sizes(sp, b) && Shadow(l) == ReplayBefore(sp, b)
    ensures var l' := Resize(sp, l, b, r); l'.holding && l'.segEr == r && l'.segPremium == OpenPremium(sp, b)
  {
    hide OpenRef, DenomOk, ReplayBefore;
  }

  lemma ArrivesAs(vec: seq<real>, specs: seq<HoldSpec>, i: nat, s: nat)
    requires AllAligned(specs, |vec|) && i < |specs| && s < |vec|
    requires specs[i].futures && Compound(vec, specs, s).ratio != 0.0
    ensures var a := Compound(vec, specs, s);
            Shadow(Book(specs[i], a.legs[i], s, a.ratio).1) == ReplayBefore(specs[i], s + 1)
  {
    hide Compound, Book, ReplayAt;
    ReplayInStep(vec, specs, i, s);
    BookKeepsSizing(specs[i], Compound(vec, specs, s).legs[i], s, Compound(vec, specs, s).ratio);
  }

  lemma OpensNext(vec: seq<real>, specs: seq<HoldSpec>, i: nat, s: nat)
    requires AllAligned(specs, |vec|) && i < |specs| && s < |vec|
    requires specs[i].futures && Compound(vec, specs, s + 1).ratio != 0.0 && Sizes(specs[i], s + 1)
    ensures var a := Compound(vec, specs, s + 1);
            && a.legs[i].holding && a.legs[i].segEr == a.ratio && a.legs[i].segPremium == OpenPremium(specs[i], s + 1)
  {
    hide Compound, Book, Resize, Sizes, ReplayBefore, Shadow, OpenPremium, LegOk;
    NotRuined(vec, specs, s, s + 1);
    ArrivesAs(vec, specs, i, s);
    LegAfter(vec, specs, i, s);
    var a := Compound(vec, specs, s);
    ResizeOpens(specs[i], Book(specs[i], a.legs[i], s, a.ratio).1, s + 1, Compound(vec, specs, s + 1).ratio);
  }

  lemma OpeningLeg(vec: seq<real>, specs: seq<HoldSpec>, i: nat, b: nat)
    requires AllAligned(specs, |vec|) && i < |specs| && b <= |vec|
    requires specs[i].futures && Compound(vec, specs, b).ratio != 0.0 && Sizes(specs[i], b)
    ensures var a := Compound(vec, specs, b);
            && a.legs[i].holding && a.legs[i].segEr == a.ratio && a.legs[i].segPremium == OpenPremium(specs[i], b)
  {
    hide Compound, Seed, Sizes, ReplayBefore, OpenPremium, LegOk;
    if b == 0 {
      CompoundStart(vec, specs);
      SeedOpens(specs[i]);
    } else {
      OpensNext(vec, specs, i, b - 1);
    }
  }
}
