/** What a held segment books, quotes missing or not, and what is booked across the
    seam of a roll. */
module HoldSeams {
  import opened Wrappers
  import opened HoldPnl
  import opened HoldProofs
  import opened HoldBook

  // ----- Opens -------------------------------------------------------------

  /** Bar a starts a segment of leg i, if it can be sized. */
  predicate Opened(vec: seq<real>, specs: seq<HoldSpec>, i: nat, a: nat)
    requires AllAligned(specs, |vec|) && i < |specs| && a <= |vec|
  {
    specs[i].posActive[a] && (a == 0 || specs[i].isRoll[a] || !Compound(vec, specs, a - 1).legs[i].holding)
  }

  /** The leg on arrival at bar b. */
  function LegBefore(vec: seq<real>, specs: seq<HoldSpec>, i: nat, b: nat): (l: Leg)
    requires AllAligned(specs, |vec|) && i < |specs| && b <= |vec|
    ensures LegOk(specs[i], l)
  {
    if b == 0 then NO_LEG else Compound(vec, specs, b - 1).legs[i]
  }

  predicate SameHolding(sp: HoldSpec, before: Leg, after: Leg)
    requires LegOk(sp, before) && LegOk(sp, after)
  {
    before.holding == after.holding && (before.holding ==> Units(sp, before) == Units(sp, after))
  }

  /** What an open on bar b at equity er leaves of a leg. Its price is the roll's own
      open on a roll and the day's premium otherwise. The quantity bought is worth
      nav_times of the equity: at that price, or in the notional of the reference
      future. A roll needs a reference price of its own; another open can fall back
      on the one last sized against and then on the day's. Without a positive price
      or a usable reference the leg stays as it was, at the new contract's mark. */
  predicate SizedRight(sp: HoldSpec, b: nat, er: real, before: Leg, after: Leg)
    requires Aligned(sp, |sp.premium|) && b < |sp.premium| && LegOk(sp, before) && LegOk(sp, after)
  {
    var price := if sp.isRoll[b] then sp.rollPremium[b] else sp.premium[b];
    var own, daily := RefAt(sp.rollFutureRef, b), RefAt(sp.dailyFutureRef, b);
    var ref := if sp.isRoll[b] || own.Some? then own else if before.segFref.Some? then before.segFref else daily;
    var stake := sp.sign * sp.navTimes * er;
    if price.None? || price.value <= 0.0 then SameHolding(sp, before, after)
    else if !sp.futures then
      after.holding && after.lastFinite == price && Units(sp, after) * price.value == stake
    else if ref.Some? && ref.value > 0.0 && Positive(sp.multFut) && Positive(sp.multOpt) then
      && after.holding && after.lastFinite == price && after.segFref == ref
      && Units(sp, after) * (ref.value * sp.multFut.value) == stake * sp.multOpt.value
    else SameHolding(sp, before, after) && (after.holding ==> after.lastFinite == price)
  }

  lemma QuantityWorth(sp: HoldSpec, nav: real, p: real, fref: real)
    requires p > 0.0
    ensures PremiumQty(sp, nav, p) * p == sp.sign * sp.navTimes * nav
    ensures DenomOk(sp, Some(fref)) ==>
              FuturesQty(sp, nav, fref) * (fref * sp.multFut.value) == sp.sign * sp.navTimes * nav * sp.multOpt.value
  {}

  lemma ResizeSizes(sp: HoldSpec, before: Leg, l: Leg, b: nat, er: real)
    requires Aligned(sp, |sp.premium|) && b < |sp.premium| && LegOk(sp, before) && LegOk(sp, l) && er != 0.0
    requires l.holding == before.holding && l.segEr == before.segEr
    requires l.segPremium == before.segPremium && l.segFref == before.segFref
    requires sp.posActive[b] && (sp.isRoll[b] || !before.holding)
    ensures SizedRight(sp, b, er, before, Resize(sp, l, b, er))
  {
    hide PremiumQty, FuturesQty, RefAt;
    var open, fref := OpenPremium(sp, b), OpenRef(sp, b, l.segFref);
    if Positive(open) {
      QuantityWorth(sp, er, open.value, if fref.Some? then fref.value else 1.0);
    }
  }

  lemma SeedSizes(sp: HoldSpec)
    requires Aligned(sp, |sp.premium|) && |sp.premium| > 0 && sp.posActive[0]
    ensures SizedRight(sp, 0, 1.0, NO_LEG, Seed(sp))
  {
    hide PremiumQty, FuturesQty, RefAt;
    var open, fref := OpenPremium(sp, 0), OpenRef(sp, 0, None);
    if Positive(open) {
      QuantityWorth(sp, 1.0, open.value, if fref.Some? then fref.value else 1.0);
    }
  }

  /** Every segment is sized off the equity of the bar that opens it. */
  lemma OpenSizes(vec: seq<real>, specs: seq<HoldSpec>, i: nat, b: nat)
    requires AllAligned(specs, |vec|) && i < |specs| && b <= |vec|
    requires Opened(vec, specs, i, b) && Compound(vec, specs, b).ratio != 0.0
    ensures var a := Compound(vec, specs, b);
            SizedRight(specs[i], b, a.ratio, LegBefore(vec, specs, i, b), a.legs[i])
  {
    hide Compound, Book, Resize, SizedRight, Seed;
    if b == 0 {
      CompoundStart(vec, specs);
      SeedSizes(specs[i]);
    } else {
      NotRuined(vec, specs, b - 1, b);
      LegAfter(vec, specs, i, b - 1);
      var a := Compound(vec, specs, b - 1);
      BookKeeps(specs[i], a.legs[i], b - 1, a.ratio);
      ResizeSizes(specs[i], a.legs[i], Book(specs[i], a.legs[i], b - 1, a.ratio).1, b, Compound(vec, specs, b).ratio);
    }
  }

  /** A leg holds nothing once it is inactive, and books nothing on a step that it
      starts without units or that either end of which is inactive. */
  lemma InactiveIsFlat(vec: seq<real>, specs: seq<HoldSpec>, i: nat, b: nat)
    requires AllAligned(specs, |vec|) && i < |specs| && b <= |vec| && Compound(vec, specs, b).ratio != 0.0
    ensures !specs[i].posActive[b] ==> !Compound(vec, specs, b).legs[i].holding
    ensures b < |vec| && HoldContrib(vec, specs, i, b) != 0.0 ==>
              Compound(vec, specs, b).legs[i].holding && specs[i].posActive[b] && specs[i].posActive[b + 1]
  {
    hide Compound, OpenPremium, OpenRef, DenomOk, Net, Grow;
    if b == 0 {
      CompoundStart(vec, specs);
    } else {
      NotRuined(vec, specs, b - 1, b);
      LegAfter(vec, specs, i, b - 1);
    }
  }

  // ----- Telescoping -------------------------------------------------------

  /** The last quote on bars a+1..b, or m when none is quoted. */
  function LastQuote(premium: seq<Num>, a: nat, b: nat, m: real): real
    requires a <= b < |premium|
  {
    if a == b then m
    else if premium[b].Some? then premium[b].value
    else LastQuote(premium, a, b - 1, m)
  }

  /** The fraction-of-capital P&L that leg i books over bars a..b. */
  function Booked(vec: seq<real>, specs: seq<HoldSpec>, i: nat, a: nat, b: nat): real
    requires AllAligned(specs, |vec|) && i < |specs| && a <= b <= |vec|
  {
    if a == b then 0.0
    else Booked(vec, specs, i, a, b - 1)
         + Compound(vec, specs, b - 1).ratio * HoldContrib(vec, specs, i, b - 1)
  }

  /** Held without a roll strictly inside a..b. */
  predicate OneSegment(sp: HoldSpec, a: nat, b: nat)
    requires Aligned(sp, |sp.premium|) && a <= b < |sp.premium|
  {
    && (forall u :: a <= u <= b ==> sp.posActive[u])
    && (forall u :: a < u < b ==> !sp.isRoll[u])
  }

  /** Between rolls a leg keeps its sizing and marks to the last quote. */
  lemma {:induction false} SegmentKept(vec: seq<real>, specs: seq<HoldSpec>, i: nat, a: nat, b: nat)
    requires AllAligned(specs, |vec|) && i < |specs| && a <= b <= |vec|
    requires OneSegment(specs[i], a, b) && (a < b ==> !specs[i].isRoll[b])
    requires Compound(vec, specs, a).legs[i].holding && Compound(vec, specs, b).ratio != 0.0
    ensures var l, l' := Compound(vec, specs, a).legs[i], Compound(vec, specs, b).legs[i];
            && l'.holding && l'.segEr == l.segEr && l'.segPremium == l.segPremium && l'.segFref == l.segFref
            && l'.lastFinite == Some(LastQuote(specs[i].premium, a, b, l.lastFinite.value))
  {
    hide Compound, OptionContrib, OptionQty, HedgeStepContrib, OpenRef, Capture;
    if a < b {
      if Compound(vec, specs, b - 1).ratio == 0.0 {
        RuinAbsorbs(vec, specs, b - 1, b);
      }
      SegmentKept(vec, specs, i, a, b - 1);
      EquityNonNegative(vec, specs, b - 1);
      CompoundStep(vec, specs, b - 1);
    }
  }

  /** One step inside a held segment books units times the move of the mark. */
  lemma SegmentStep(vec: seq<real>, specs: seq<HoldSpec>, i: nat, a: nat, s: nat)
    requires AllAligned(specs, |vec|) && i < |specs| && a <= s < |vec|
    requires OneSegment(specs[i], a, s + 1) && specs[i].hedgeFactor.None?
    requires Compound(vec, specs, a).legs[i].holding && Compound(vec, specs, s).ratio != 0.0
    requires specs[i].isRoll[a] ==> specs[i].rollPremium[a] == Compound(vec, specs, a).legs[i].lastFinite
    ensures var l, p := Compound(vec, specs, a).legs[i], specs[i].premium;
            Compound(vec, specs, s).ratio * HoldContrib(vec, specs, i, s) ==
            Units(specs[i], l) * (LastQuote(p, a, s + 1, l.lastFinite.value) - LastQuote(p, a, s, l.lastFinite.value))
  {
    hide Compound, Units, OptionContrib, OptionQty, Net, Grow, LossCap, Seed, Resize;
    SegmentKept(vec, specs, i, a, s);
    EquityNonNegative(vec, specs, s);
    CompoundStep(vec, specs, s);
    var l, k := Compound(vec, specs, a).legs[i], Compound(vec, specs, s).legs[i];
    OptionContribDollars(specs[i], k, s, Compound(vec, specs, s).ratio);
    SameUnits(specs[i], l, k);
    assert Base(specs[i], k, s) == Some(LastQuote(specs[i].premium, a, s, l.lastFinite.value));
  }

  /** Over a held segment without a hedge, whatever quotes are missing, the booked
      P&L is the quantity times the move from the segment's mark to the last quote;
      the step into the next roll is the old contract's. */
  lemma {:induction false} SegmentTelescopes(vec: seq<real>, specs: seq<HoldSpec>, i: nat, a: nat, b: nat)
    requires AllAligned(specs, |vec|) && i < |specs| && a <= b <= |vec|
    requires OneSegment(specs[i], a, b) && specs[i].hedgeFactor.None?
    requires Compound(vec, specs, a).legs[i].holding && (b > a ==> Compound(vec, specs, b - 1).ratio != 0.0)
    requires specs[i].isRoll[a] ==> specs[i].rollPremium[a] == Compound(vec, specs, a).legs[i].lastFinite
    ensures var l := Compound(vec, specs, a).legs[i];
            Booked(vec, specs, i, a, b) ==
            Units(specs[i], l) * (LastQuote(specs[i].premium, a, b, l.lastFinite.value) - l.lastFinite.value)
  {
    hide Compound, Units, HoldContrib;
    if a < b {
      var s := b - 1;
      if a < s && Compound(vec, specs, s - 1).ratio == 0.0 {
        RuinAbsorbs(vec, specs, s - 1, s);
      }
      SegmentTelescopes(vec, specs, i, a, s);
      SegmentStep(vec, specs, i, a, s);
      var l, p := Compound(vec, specs, a).legs[i], specs[i].premium;
      var m := l.lastFinite.value;
      Distribute(Units(specs[i], l), LastQuote(p, a, s, m), m);
      Distribute(Units(specs[i], l), LastQuote(p, a, b, m), LastQuote(p, a, s, m));
      Distribute(Units(specs[i], l), LastQuote(p, a, b, m), m);
    }
  }

  lemma Distribute(k: real, x: real, d: real)
    ensures k * (x - d) == k * x - k * d
  {}

  // ----- Seams -----------------------------------------------------------

  /** The first quote on bars a+1..b. */
  function FirstQuote(premium: seq<Num>, a: nat, b: nat): Num
    requires a <= b < |premium|
    decreases b - a
  {
    if a == b then None
    else if premium[a + 1].Some? then premium[a + 1]
    else FirstQuote(premium, a + 1, b)
  }

  lemma {:induction false} LastAfterFirst(premium: seq<Num>, a: nat, b: nat, m: real, k: real)
    requires a < b < |premium|
    ensures LastQuote(premium, a, b, m) ==
            LastQuote(premium, a + 1, b, if premium[a + 1].Some? then premium[a + 1].value else m)
    ensures if FirstQuote(premium, a, b).Some? then LastQuote(premium, a, b, m) == LastQuote(premium, a, b, k)
            else LastQuote(premium, a, b, m) == m
  {
    if a + 1 == b {
      assert FirstQuote(premium, b, b) == None && LastQuote(premium, a, a, m) == m;
    } else {
      LastAfterFirst(premium, a, b - 1, m, k);
      FirstFromLast(premium, a, b);
    }
  }

  lemma {:induction false} FirstFromLast(premium: seq<Num>, a: nat, b: nat)
    requires a < b < |premium|
    ensures FirstQuote(premium, a, b) ==
            if FirstQuote(premium, a, b - 1).Some? then FirstQuote(premium, a, b - 1) else premium[b]
    decreases b - a
  {
    if a + 1 == b {
      assert FirstQuote(premium, b, b) == None && FirstQuote(premium, a, a) == None;
    } else {
      FirstFromLast(premium, a + 1, b);
    }
  }

  lemma {:induction false} BookedFront(vec: seq<real>, specs: seq<HoldSpec>, i: nat, a: nat, b: nat)
    requires AllAligned(specs, |vec|) && i < |specs| && a < b <= |vec|
    ensures Booked(vec, specs, i, a, b) ==
            Compound(vec, specs, a).ratio * HoldContrib(vec, specs, i, a) + Booked(vec, specs, i, a + 1, b)
  {
    hide Compound, HoldContrib;
    if a + 1 < b {
      BookedFront(vec, specs, i, a, b - 1);
    }
  }

  /** What the step after an unsizable roll on bar a books, in units: the move from
      the roll's open if that is quoted. */
  function RollMove(sp: HoldSpec, u: real, a: nat): real
    requires Aligned(sp, |sp.premium|) && a + 1 < |sp.premium|
  {
    if sp.rollPremium[a].Some? && sp.premium[a + 1].Some?
    then Made(u, sp.rollPremium[a].value, sp.premium[a + 1].value) else 0.0
  }

  lemma RollStepContrib(vec: seq<real>, specs: seq<HoldSpec>, i: nat, a: nat)
    requires AllAligned(specs, |vec|) && i < |specs| && a < |vec| && specs[i].hedgeFactor.None?
    requires specs[i].posActive[a] && specs[i].posActive[a + 1] && specs[i].isRoll[a]
    requires Compound(vec, specs, a).legs[i].holding && Compound(vec, specs, a).ratio != 0.0
    ensures var a0 := Compound(vec, specs, a);
            a0.ratio * HoldContrib(vec, specs, i, a) == RollMove(specs[i], Units(specs[i], a0.legs[i]), a)
  {
    hide Compound, Units, OptionContrib, OptionQty, Net, Grow, LossCap, Seed, Resize;
    CompoundStep(vec, specs, a);
    EquityNonNegative(vec, specs, a);
    OptionContribDollars(specs[i], Compound(vec, specs, a).legs[i], a, Compound(vec, specs, a).ratio);
  }

  /** Only a quote at the end of that step moves the leg's mark off the old
      contract. */
  lemma RollStepLeg(vec: seq<real>, specs: seq<HoldSpec>, i: nat, a: nat)
    requires AllAligned(specs, |vec|) && i < |specs| && a < |vec| && specs[i].hedgeFactor.None?
    requires specs[i].posActive[a] && specs[i].posActive[a + 1] && specs[i].isRoll[a] && !specs[i].isRoll[a + 1]
    requires Compound(vec, specs, a).legs[i].holding
    requires Compound(vec, specs, a).ratio != 0.0 && Compound(vec, specs, a + 1).ratio != 0.0
    ensures var l, l' := Compound(vec, specs, a).legs[i], Compound(vec, specs, a + 1).legs[i];
            && l'.holding && Units(specs[i], l') == Units(specs[i], l)
            && l'.lastFinite == (if specs[i].premium[a + 1].Some? then specs[i].premium[a + 1] else l.lastFinite)
  {
    hide Compound, OptionQty, OptionContrib, HedgeStepContrib, OpenRef, Capture, FuturesQty, PremiumQty, Grow, LossCap, Net;
    CompoundStep(vec, specs, a);
  }

  lemma FirstIsNext(premium: seq<Num>, a: nat, b: nat)
    requires a < b < |premium|
    ensures premium[a + 1].Some? ==> FirstQuote(premium, a, b) == premium[a + 1]
    ensures a + 1 == b ==> FirstQuote(premium, a, b) == premium[b]
  {
    assert FirstQuote(premium, b, b) == None;
  }

  /** What u units make between two marks. */
  function Made(u: real, from: real, to: real): real {
    u * (to - from)
  }

  lemma SegmentMade(vec: seq<real>, specs: seq<HoldSpec>, i: nat, a: nat, b: nat)
    requires AllAligned(specs, |vec|) && i < |specs| && a <= b <= |vec|
    requires OneSegment(specs[i], a, b) && specs[i].hedgeFactor.None? && !specs[i].isRoll[a]
    requires Compound(vec, specs, a).legs[i].holding && (b > a ==> Compound(vec, specs, b - 1).ratio != 0.0)
    ensures var l := Compound(vec, specs, a).legs[i];
            Booked(vec, specs, i, a, b) ==
            Made(Units(specs[i], l), l.lastFinite.value, LastQuote(specs[i].premium, a, b, l.lastFinite.value))
  {
    hide Compound, Units, HoldContrib, Booked, LastQuote;
    SegmentTelescopes(vec, specs, i, a, b);
  }

  /** Past an unsizable roll the leg books from the mark it has one bar later. */
  lemma BookedPastRoll(vec: seq<real>, specs: seq<HoldSpec>, i: nat, a: nat, b: nat)
    requires AllAligned(specs, |vec|) && i < |specs| && a < b <= |vec|
    requires OneSegment(specs[i], a, b) && specs[i].hedgeFactor.None?
    requires Compound(vec, specs, a).legs[i].holding && Compound(vec, specs, b - 1).ratio != 0.0
    requires specs[i].isRoll[a]
    ensures var l, p := Compound(vec, specs, a).legs[i], specs[i].premium;
            var u, k := Units(specs[i], l), if p[a + 1].Some? then p[a + 1].value else l.lastFinite.value;
            Booked(vec, specs, i, a, b) == RollMove(specs[i], u, a) + Made(u, k, LastQuote(p, a + 1, b, k))
  {
    hide Compound, Units, HoldContrib, Booked, LastQuote, Made, RollMove;
    NotRuined(vec, specs, a, b - 1);
    RollStepContrib(vec, specs, i, a);
    BookedFront(vec, specs, i, a, b);
    var u, k := Units(specs[i], Compound(vec, specs, a).legs[i]),
                if specs[i].premium[a + 1].Some? then specs[i].premium[a + 1].value
                else Compound(vec, specs, a).legs[i].lastFinite.value;
    if a + 1 == b {
      NothingBooked(vec, specs, i, b, k);
      MadeSplits(u, k, k, k);
    } else {
      NotRuined(vec, specs, a + 1, b - 1);
      RollStepLeg(vec, specs, i, a);
      SegmentMade(vec, specs, i, a + 1, b);
    }
  }

  lemma NothingBooked(vec: seq<real>, specs: seq<HoldSpec>, i: nat, b: nat, m: real)
    requires AllAligned(specs, |vec|) && i < |specs| && b <= |vec|
    ensures Booked(vec, specs, i, b, b) == 0.0 && LastQuote(specs[i].premium, b, b, m) == m
  {}

  /** The level that the contract opened by a roll on bar a starts from: the roll's
      open, or the first later quote, or none but the old one. */
  function OpenMark(sp: HoldSpec, l: Leg, a: nat, b: nat): real
    requires Aligned(sp, |sp.premium|) && a <= b < |sp.premium| && LegOk(sp, l) && l.holding
  {
    if sp.rollPremium[a].Some? then sp.rollPremium[a].value
    else if FirstQuote(sp.premium, a, b).Some? then FirstQuote(sp.premium, a, b).value
    else l.lastFinite.value
  }

  /** Held without a hedge over a roll, the P&L booked up to bar b is the new
      contract's own move, so nothing is booked across the seam, exactly when the
      roll's open is positive or the very next bar is quoted or none is. (Or when the
      new contract happens to start at the old one's last quote, or no units are
      held.) */
  lemma SeamExactIff(vec: seq<real>, specs: seq<HoldSpec>, i: nat, a: nat, b: nat)
    requires AllAligned(specs, |vec|) && i < |specs| && a < b <= |vec|
    requires OneSegment(specs[i], a, b) && specs[i].hedgeFactor.None?
    requires Compound(vec, specs, a).legs[i].holding && Compound(vec, specs, b - 1).ratio != 0.0
    requires specs[i].isRoll[a]
    ensures var l, p := Compound(vec, specs, a).legs[i], specs[i].premium;
            var m := OpenMark(specs[i], l, a, b);
            Booked(vec, specs, i, a, b) == Made(Units(specs[i], l), m, LastQuote(p, a, b, m)) <==>
            || Positive(specs[i].rollPremium[a]) || p[a + 1].Some? || FirstQuote(p, a, b).None?
            || m == l.lastFinite.value || Units(specs[i], l) == 0.0
  {
    hide Compound, Units, HoldContrib, Booked, FirstQuote, Made;
    var sp, l := specs[i], Compound(vec, specs, a).legs[i];
    var p, m := sp.premium, OpenMark(specs[i], l, a, b);
    NotRuined(vec, specs, a, b - 1);
    BookedPastRoll(vec, specs, i, a, b);
    FirstIsNext(p, a, b);
    LastAfterFirst(p, a, b, m, l.lastFinite.value);
    LastAfterFirst(p, a, b, l.lastFinite.value, m);
    if Positive(sp.rollPremium[a]) {
      RollAnchors(vec, specs, i, a);
    }
    hide LastQuote;
    var u, last := Units(sp, l), LastQuote(p, a, b, m);
    if p[a + 1].Some? {
      MadeSplits(u, m, p[a + 1].value, last);
    } else if FirstQuote(p, a, b).Some? {
      SeamGap(u, last, m, l.lastFinite.value);
    } else {
      MadeSplits(u, m, m, m);
      MadeSplits(u, l.lastFinite.value, l.lastFinite.value, l.lastFinite.value);
    }
  }

  lemma MadeSplits(u: real, x: real, y: real, z: real)
    ensures Made(u, x, y) + Made(u, y, z) == Made(u, x, z)
    ensures x == y ==> Made(u, x, y) == 0.0
  {}

  /** At a roll with a positive open, the last finite premium of a held leg is that
      open. */
  lemma RollAnchors(vec: seq<real>, specs: seq<HoldSpec>, i: nat, a: nat)
    requires AllAligned(specs, |vec|) && i < |specs| && a <= |vec|
    requires Compound(vec, specs, a).legs[i].holding && Compound(vec, specs, a).ratio != 0.0
    requires specs[i].isRoll[a] && Positive(specs[i].rollPremium[a])
    ensures Compound(vec, specs, a).legs[i].lastFinite == specs[i].rollPremium[a]
  {
    hide Compound, Book, Net, NetStep, Scale, HoldContrib, Grow, LossCap, Resize, Seed, LegOk, Positive;
    if a == 0 {
      CompoundStart(vec, specs);
      SeedAnchors(specs[i]);
    } else {
      NotRuined(vec, specs, a - 1, a);
      LegAfter(vec, specs, i, a - 1);
      var before := Compound(vec, specs, a - 1);
      ResizeAnchors(specs[i], Book(specs[i], before.legs[i], a - 1, before.ratio).1, a, Compound(vec, specs, a).ratio);
    }
  }

  lemma SeedAnchors(sp: HoldSpec)
    requires Aligned(sp, |sp.premium|) && |sp.premium| > 0 && Seed(sp).holding && sp.isRoll[0]
    ensures Seed(sp).lastFinite == sp.rollPremium[0]
  {}

  lemma ResizeAnchors(sp: HoldSpec, l: Leg, b: nat, r: real)
    requires Aligned(sp, |sp.premium|) && b < |sp.premium| && LegOk(sp, l) && r != 0.0
    requires Resize(sp, l, b, r).holding && sp.isRoll[b] && Positive(sp.rollPremium[b])
    ensures Resize(sp, l, b, r).lastFinite == sp.rollPremium[b]
  {
    hide OpenRef, DenomOk;
  }

  lemma SeamGap(u: real, last: real, q: real, mark: real)
    ensures Made(u, mark, last) == Made(u, q, last) <==> q == mark || u == 0.0
  {
    assert u * (last - mark) - u * (last - q) == u * (q - mark);
  }

  /** One long leg that rolls on bar 1 at the given open, with no quote on bar 2:
      the old contract is quoted 10, 10 and the new one 4. */
  function GapRoll(open: Num): HoldSpec {
    HoldSpec(1.0, 1.0, [Some(10.0), Some(10.0), None, Some(4.0)], [true, true, false, false],
             [Some(10.0), open, None, None], [true, true, true, true], false, None, None, None, None,
             None, None, None, None, None, 1, 10.0)
  }

  function FirstLeg(): Leg {
    Leg(Some(10.0), None, 1.0, true, Some(10.0), None, None)
  }

  /** On bars 0 and 1 nothing moves and nothing is traded. */
  lemma NothingMoves(open: Num, s: nat)
    requires s < 2 && !Positive(open)
    ensures Book(GapRoll(open), FirstLeg(), s, 1.0) == (0.0, FirstLeg())
    ensures Resize(GapRoll(open), FirstLeg(), s + 1, 1.0) == FirstLeg()
  {}

  lemma OldQuoteMeetsNew(open: Num)
    ensures Book(GapRoll(open), FirstLeg(), 2, 1.0).0 == -0.6
  {}

  lemma {:induction false} StillFirstLeg(open: Num, t: nat)
    requires t <= 2 && !Positive(open)
    ensures AllAligned([GapRoll(open)], 3)
    ensures Compound([0.0, 0.0, 0.0], [GapRoll(open)], t) == Account(1.0, false, [FirstLeg()])
  {
    var vec: seq<real> := [0.0, 0.0, 0.0];
    if t == 0 {
      CompoundStart(vec, [GapRoll(open)]);
      assert Compound(vec, [GapRoll(open)], 0).legs == [FirstLeg()];
    } else {
      StillFirstLeg(open, t - 1);
      NothingMoves(open, t - 1);
      NetOne(vec, GapRoll(open), t - 1, FirstLeg(), 1.0);
      CompoundStep(vec, [GapRoll(open)], t - 1);
      hide Compound, Book, Resize, Net, GapRoll, FirstLeg;
      assert Compound(vec, [GapRoll(open)], t).legs == [FirstLeg()];
    }
  }

  /** Whether the roll's open is missing or quoted at 0 or below, the gap between
      the two contracts' levels is then booked as if it were a move: six tenths of
      the equity are lost although the old contract never moved and the new one has
      a single quote. */
  lemma GapIsBooked(open: Num)
    requires !Positive(open)
    ensures AllAligned([GapRoll(open)], 3) && !SeamOk(GapRoll(open), 1)
    ensures Compound([0.0, 0.0, 0.0], [GapRoll(open)], 3).ratio == 0.4
  {
    var sp := GapRoll(open);
    var vec: seq<real> := [0.0, 0.0, 0.0];
    StillFirstLeg(open, 2);
    OldQuoteMeetsNew(open);
    NetOne(vec, sp, 2, FirstLeg(), 1.0);
    CompoundStep(vec, [sp], 2);
    hide Compound, Book, Resize, Net;
  }

  // ----- Closes ------------------------------------------------------------

  lemma CloseBooksNothing(vec: seq<real>, specs: seq<HoldSpec>, i: nat, a: nat, b: nat)
    requires AllAligned(specs, |vec|) && i < |specs| && a <= b < |vec| && !specs[i].posActive[b + 1]
    ensures Booked(vec, specs, i, a, b + 1) == Booked(vec, specs, i, a, b)
  {
    hide Compound;
    CompoundStep(vec, specs, b);
  }

  lemma LastQuoteNext(premium: seq<Num>, a: nat, b: nat, m: real)
    requires a <= b && b + 1 < |premium|
    ensures LastQuote(premium, a, b + 1, m) ==
            if premium[b + 1].Some? then premium[b + 1].value else LastQuote(premium, a, b, m)
  {}

  lemma MadeSame(u: real, from: real, x: real, y: real)
    ensures Made(u, from, x) == Made(u, from, y) <==> x == y || u == 0.0
  {
    assert Made(u, from, x) - Made(u, from, y) == u * (x - y);
  }

  /** A leg that is held without a hedge up to bar b and closes on bar b+1 has booked
      its whole move, up to the quote that it closes at, exactly when it has no quote
      there or the one before again, or holds no units: the step into the close is
      not booked. */
  lemma CloseExactIff(vec: seq<real>, specs: seq<HoldSpec>, i: nat, a: nat, b: nat)
    requires AllAligned(specs, |vec|) && i < |specs| && a <= b < |vec|
    requires OneSegment(specs[i], a, b) && specs[i].hedgeFactor.None? && !specs[i].posActive[b + 1]
    requires Compound(vec, specs, a).legs[i].holding && (b > a ==> Compound(vec, specs, b - 1).ratio != 0.0)
    requires specs[i].isRoll[a] ==> specs[i].rollPremium[a] == Compound(vec, specs, a).legs[i].lastFinite
    ensures var l, p := Compound(vec, specs, a).legs[i], specs[i].premium;
            var m, u := l.lastFinite.value, Units(specs[i], l);
            Booked(vec, specs, i, a, b + 1) == Made(u, m, LastQuote(p, a, b + 1, m)) <==>
            p[b + 1].None? || p[b + 1].value == LastQuote(p, a, b, m) || u == 0.0
  {
    hide Compound, Units, HoldContrib, Booked, LastQuote;
    SegmentTelescopes(vec, specs, i, a, b);
    CloseBooksNothing(vec, specs, i, a, b);
    var l, p := Compound(vec, specs, a).legs[i], specs[i].premium;
    var m, u := l.lastFinite.value, Units(specs[i], l);
    LastQuoteNext(p, a, b, m);
    assert Booked(vec, specs, i, a, b) == Made(u, m, LastQuote(p, a, b, m));
    hide Made;
    MadeSame(u, m, LastQuote(p, a, b, m), LastQuote(p, a, b + 1, m));
  }

  /** One long leg, bought at 10, that closes on bar 2 at a quote of 20. */
  function ClosingLeg(): HoldSpec {
    HoldSpec(1.0, 1.0, [Some(10.0), Some(10.0), Some(20.0)], [true, false, false], [Some(10.0), None, None],
             [true, true, false], false, None, None, None, None, None, None, None, None, None, 1, 10.0)
  }

  lemma ClosingLegSteps()
    ensures Book(ClosingLeg(), FirstLeg(), 0, 1.0) == (0.0, FirstLeg())
    ensures Resize(ClosingLeg(), FirstLeg(), 1, 1.0) == FirstLeg()
    ensures Book(ClosingLeg(), FirstLeg(), 1, 1.0) == (0.0, FirstLeg())
  {}

  lemma {:induction false} ClosingEquity(t: nat)
    requires t <= 2
    ensures AllAligned([ClosingLeg()], 2)
    ensures var a := Compound([0.0, 0.0], [ClosingLeg()], t);
            a.ratio == 1.0 && !a.wiped && (t < 2 ==> a.legs == [FirstLeg()])
  {
    var vec: seq<real> := [0.0, 0.0];
    if t == 0 {
      CompoundStart(vec, [ClosingLeg()]);
      assert Compound(vec, [ClosingLeg()], 0).legs == [FirstLeg()];
    } else {
      ClosingEquity(t - 1);
      ClosingLegSteps();
      NetOne(vec, ClosingLeg(), t - 1, FirstLeg(), 1.0);
      assert Compound(vec, [ClosingLeg()], t - 1) == Account(1.0, false, [FirstLeg()]);
      CompoundStep(vec, [ClosingLeg()], t - 1);
      hide Compound, Book, Resize, Net, ClosingLeg, FirstLeg;
      assert t < 2 ==> Compound(vec, [ClosingLeg()], t).legs == [FirstLeg()];
    }
  }

  function ClosingLot(): Lot {
    Lot(Some(1.0 / 10.0), Some(10.0), None, None, None)
  }

  lemma ClosingLotSteps()
    ensures TradeLot(ClosingLeg(), NO_LOT, 0, 1.0) == ClosingLot()
    ensures MarkLot(ClosingLeg(), ClosingLot(), 0) == (0.0, ClosingLot())
    ensures TradeLot(ClosingLeg(), ClosingLot(), 1, 1.0) == ClosingLot()
    ensures MarkLot(ClosingLeg(), ClosingLot(), 1).0 == 1.0
  {}

  lemma DollarsOne(sp: HoldSpec, h: Lot, s: nat, n: nat)
    requires Aligned(sp, n + 1) && s < n
    ensures Dollars([sp], [h], s, n, 1) == MarkLot(sp, h, s).0 && AllSold([sp], [h], s, n, 1) == Sold(sp, h, s)
  {
    assert Dollars([sp], [h], s, n, 0) == 0.0 && AllSold([sp], [h], s, n, 0) == 0.0;
  }

  lemma {:induction false} ClosingNav(t: nat)
    requires t <= 1
    ensures AllAligned([ClosingLeg()], 2)
    ensures Plain([0.0, 0.0], [ClosingLeg()], 1.0, t) == PlainBook(1.0, [ClosingLot()])
  {
    var vec: seq<real> := [0.0, 0.0];
    ClosingLotSteps();
    if t == 1 {
      ClosingNav(0);
      DollarsOne(ClosingLeg(), ClosingLot(), 0, 2);
      PlainNav(vec, [ClosingLeg()], 0, 1.0);
      assert vec[0] == 0.0;
      hide Dollars, MarkLot, TradeLot, ClosingLot;
    }
    assert Plain(vec, [ClosingLeg()], 1.0, t).lots == [ClosingLot()];
  }

  /** The engine ends with the equity it started with, although a book that bought
      at 10 and sold at 20 has doubled it. */
  lemma CloseIsMissed()
    ensures AllAligned([ClosingLeg()], 2)
    ensures Compound([0.0, 0.0], [ClosingLeg()], 2).ratio == 1.0
    ensures Plain([0.0, 0.0], [ClosingLeg()], 1.0, 2).nav == 2.0
    ensures !ClosesQuietly([0.0, 0.0], [ClosingLeg()], 1.0, 1)
  {
    var vec: seq<real> := [0.0, 0.0];
    ClosingEquity(2);
    ClosingNav(1);
    ClosingLotSteps();
    DollarsOne(ClosingLeg(), ClosingLot(), 1, 2);
    PlainNav(vec, [ClosingLeg()], 1, 1.0);
    assert vec[1] == 0.0 && !ClosingLeg().posActive[2];
    hide Compound, Plain, Dollars, AllSold, MarkLot, ClosingLot, ClosingLeg;
  }

  lemma NetOne(vec: seq<real>, sp: HoldSpec, s: nat, l: Leg, r: real)
    requires Aligned(sp, |vec| + 1) && s < |vec| && LegOk(sp, l)
    ensures Net(vec[s], [sp], Account(r, false, [l]), s, |vec|, 1) == vec[s] + Book(sp, l, s, r).0
  {
    var a := Account(r, false, [l]);
    assert Net(vec[s], [sp], a, s, |vec|, 0) == vec[s];
  }
}
