/** The intraday delta-hedge loop and the trigger scan that mirrors it. Times are
    whole seconds; the option pricing kernel is an arbitrary function. */
module IntradayHedge {
  import opened Wrappers

  datatype Bar = Bar(ts: int, price: real, bid: Option<real>, ask: Option<real>,
                     bidSize: Option<real>, askSize: Option<real>)

  function Anchor(ts: int, price: real): Bar {
    Bar(ts, price, None, None, None, None)
  }

  // ----- Carry-forward -----------------------------------------------------

  predicate Ascending(bars: seq<Bar>) {
    forall i, j :: 0 <= i < j < |bars| ==> bars[i].ts < bars[j].ts
  }

  /** The bars printed at or before ts: what is known then. */
  function Known(bars: seq<Bar>, ts: int): (k: seq<Bar>)
    ensures k <= bars && forall i :: 0 <= i < |k| ==> k[i].ts <= ts
    ensures |k| < |bars| ==> bars[|k|].ts > ts
  {
    if bars == [] || bars[0].ts > ts then [] else [bars[0]] + Known(bars[1..], ts)
  }

  method LastKnownAtOrBefore(bars: seq<Bar>, ts: int) returns (best: Option<Bar>)
    ensures best == LastKnown(bars, ts)
    ensures Ascending(bars) && best.Some? ==>
              best.value in bars && best.value.ts <= ts
              && forall b :: b in bars && b.ts <= ts ==> b.ts <= best.value.ts
    ensures Ascending(bars) && best.None? ==> forall b :: b in bars ==> b.ts > ts
  {
    best := None;
    for i := 0 to |bars|
      invariant i <= |Known(bars, ts)|
      invariant best == if i == 0 then None else Some(bars[i - 1])
    {
      if bars[i].ts <= ts {
        best := Some(bars[i]);
      } else {
        break;
      }
    }
  }

  function LastKnown(bars: seq<Bar>, ts: int): Option<Bar> {
    var k := Known(bars, ts);
    if k == [] then None else Some(k[|k| - 1])
  }

  /** What is known at an earlier time follows from what is known later. */
  lemma {:induction false} KnownEarlier(a: seq<Bar>, b: seq<Bar>, u: int, t: int)
    requires u <= t && Known(a, t) == Known(b, t)
    ensures Known(a, u) == Known(b, u)
  {
    if a != [] && b != [] && a[0].ts <= u {
      assert Known(a, t)[0] == Known(b, t)[0];
      assert Known(a[1..], t) == Known(a, t)[1..] && Known(b[1..], t) == Known(b, t)[1..];
      KnownEarlier(a[1..], b[1..], u, t);
    }
  }

  // ----- The hedge module --------------------------------------------------

  datatype Condition = MaxSpread(pct: real, minTicks: real) | MinQuoteSize(size: real)
                     | MinRehedgeDelta(threshold: real)
  datatype Target = Zero | BandEdge | Ratio(ratio: real)
  datatype HedgeSpec = HedgeSpec(enabled: bool, intervalMinutes: Option<real>, deltaBand: Option<real>,
                                 sigmaEnabled: bool, sigmaN: real, conditions: seq<Condition>, target: Target)

  /** `netDelta(ts, forward, call, put)` is the side-signed straddle delta and
      `rootTime(ts)` the square root of the time to expiry. */
  datatype Pricing = Pricing(netDelta: (int, real, real, real) -> real, rootTime: int -> real, iv: Option<real>)

  /** What a day's hedge and trigger scan share. */
  datatype Day = Day(es: seq<Bar>, calls: seq<Bar>, puts: seq<Bar>, onTs: int, onPrice: real,
                     callFallback: real, putFallback: real, pricing: Pricing, hedge: HedgeSpec, tick: real)

  /** The position and the bar facts captured at the last executed hedge. */
  datatype HedgeState = HedgeState(qty: real, lastTs: int, lastDelta: real, lastPrice: real)

  function TargetQty(h: HedgeSpec, delta: real): real {
    match h.target
    case Ratio(ratio) => -ratio * delta
    case BandEdge =>
      var band := if h.deltaBand.Some? then h.deltaBand.value else 0.0;
      -delta + (if delta >= 0.0 then 1.0 else -1.0) * band
    case Zero => -delta
  }

  predicate Considered(h: HedgeSpec, s: HedgeState, ts: int, delta: real, price: real, sigma: Option<real>) {
    || (h.intervalMinutes.Some? && h.intervalMinutes.value != 0.0
        && (ts - s.lastTs) as real >= h.intervalMinutes.value * 60.0)
    || (h.deltaBand.Some? && AbsReal(delta - s.lastDelta) >= h.deltaBand.value)
    || (h.sigmaEnabled && sigma.Some? && sigma.value > 0.0 && AbsReal(price - s.lastPrice) >= h.sigmaN * sigma.value)
  }

  function MaxReal(a: real, b: real): real {
    if a < b then b else a
  }

  predicate Passes(c: Condition, bar: Bar, toRemove: real, tick: real) {
    match c
    case MaxSpread(pct, minTicks) =>
      bar.bid.Some? && bar.ask.Some?
      && bar.ask.value - bar.bid.value <= MaxReal(pct / 100.0 * bar.price, minTicks * tick)
    case MinQuoteSize(size) =>
      bar.bidSize.Some? && bar.askSize.Some? && bar.bidSize.value >= size && bar.askSize.value >= size
    case MinRehedgeDelta(threshold) => AbsReal(toRemove) >= threshold
  }

  /** One standard deviation at time ts of a reference price. */
  function SigmaAt(pr: Pricing, reference: real, ts: int): Option<real> {
    if pr.iv.Some? then Some(reference * pr.iv.value * pr.rootTime(ts)) else None
  }

  predicate Executes(d: Day, bar: Bar, delta: real, s: HedgeState, isEntry: bool, endpoint: int) {
    var h := d.hedge;
    isEntry ||
    (bar.ts < endpoint
     && Considered(h, s, bar.ts, delta, bar.price,
                   SigmaAt(d.pricing, s.lastPrice, bar.ts))
     && forall i :: 0 <= i < |h.conditions| ==>
          Passes(h.conditions[i], bar, TargetQty(h, delta) - s.qty, d.tick))
  }

  function RehedgeStep(d: Day, bar: Bar, delta: real, s: HedgeState, isEntry: bool, endpoint: int): (bool, HedgeState) {
    if Executes(d, bar, delta, s, isEntry, endpoint)
    then (true, HedgeState(TargetQty(d.hedge, delta), bar.ts, delta, bar.price))
    else (false, s)
  }

  // ----- The walk ----------------------------------------------------------

  function Interior(bars: seq<Bar>, lo: int, hi: int): (r: seq<Bar>)
    ensures forall i :: 0 <= i < |r| ==> lo < r[i].ts < hi
  {
    if bars == [] then []
    else Interior(bars[..|bars| - 1], lo, hi) +
         if lo < bars[|bars| - 1].ts < hi then [bars[|bars| - 1]] else []
  }

  /** The entry anchor, the ES bars strictly inside, and the endpoint. */
  function Path(d: Day, endTs: int, endPrice: real): (p: seq<Bar>)
    ensures |p| == |Interior(d.es, d.onTs, endTs)| + 2
  {
    [Anchor(d.onTs, d.onPrice)] + Interior(d.es, d.onTs, endTs) + [Anchor(endTs, endPrice)]
  }

  function Mark(bars: seq<Bar>, ts: int, fallback: real): real {
    var k := LastKnown(bars, ts);
    if k.Some? then k.value.price else fallback
  }

  function NetDelta(d: Day, bar: Bar): real {
    d.pricing.netDelta(bar.ts, bar.price, Mark(d.calls, bar.ts, d.callFallback), Mark(d.puts, bar.ts, d.putFallback))
  }

  datatype HedgeTrade = HedgeTrade(ts: int, underlying: real, delta: real, qty: real)

  /** Hedge state, P&L and trades on arrival at a point of the path. */
  datatype Tally = Tally(s: HedgeState, pnl: real, trades: seq<HedgeTrade>)

  function Flat(d: Day): Tally {
    Tally(HedgeState(0.0, d.onTs, 0.0, d.onPrice), 0.0, [])
  }

  /** Rehedge at point i, then carry the position to the next point. */
  function WalkStep(d: Day, path: seq<Bar>, endpoint: int, t: Tally, i: nat): Tally
    requires i < |path|
  {
    var bar := path[i];
    var delta := NetDelta(d, bar);
    var (executed, s) := RehedgeStep(d, bar, delta, t.s, i == 0, endpoint);
    Tally(s, if i + 1 < |path| then t.pnl + s.qty * (path[i + 1].price - bar.price) else t.pnl,
          if executed then t.trades + [HedgeTrade(bar.ts, bar.price, delta, s.qty)] else t.trades)
  }

  function Walk(d: Day, path: seq<Bar>, endpoint: int, i: nat): Tally
    requires i <= |path|
  {
    if i == 0 then Flat(d) else WalkStep(d, path, endpoint, Walk(d, path, endpoint, i - 1), i - 1)
  }

  method BuildPath(d: Day, endTs: int, endPrice: real) returns (path: seq<Bar>)
    ensures path == Path(d, endTs, endPrice)
  {
    path := [Anchor(d.onTs, d.onPrice)];
    for i := 0 to |d.es|
      invariant path == [Anchor(d.onTs, d.onPrice)] + Interior(d.es[..i], d.onTs, endTs)
    {
      assert d.es[..i + 1][..i] == d.es[..i];
      if d.onTs < d.es[i].ts < endTs {
        path := path + [d.es[i]];
      }
    }
    assert d.es[..|d.es|] == d.es;
    path := path + [Anchor(endTs, endPrice)];
  }

  method DeltaAt(d: Day, bar: Bar) returns (delta: real, call: real, put: real)
    ensures call == Mark(d.calls, bar.ts, d.callFallback) && put == Mark(d.puts, bar.ts, d.putFallback)
    ensures delta == NetDelta(d, bar)
  {
    hide LastKnown;
    var cm := LastKnownAtOrBefore(d.calls, bar.ts);
    var pm := LastKnownAtOrBefore(d.puts, bar.ts);
    call := if cm.Some? then cm.value.price else d.callFallback;
    put := if pm.Some? then pm.value.price else d.putFallback;
    delta := d.pricing.netDelta(bar.ts, bar.price, call, put);
  }

  /** The realized hedge over [on, off]. */
  method RunHedge(d: Day, offTs: int, offPrice: real) returns (trades: seq<HedgeTrade>, pnl: real)
    ensures var path := Path(d, offTs, offPrice);
            var w := Walk(d, path, offTs, |path|);
            trades == w.trades && pnl == w.pnl
    ensures forall k :: 0 <= k < |trades| ==> OnTarget(d.hedge, trades[k].delta, trades[k].qty)
  {
    hide Path, NetDelta, RehedgeStep, Mark, Interior, LastKnown, OnTarget;
    trades, pnl := [], 0.0;
    var path := BuildPath(d, offTs, offPrice);
    var s := HedgeState(0.0, d.onTs, 0.0, d.onPrice);
    for i := 0 to |path|
      invariant Tally(s, pnl, trades) == Walk(d, path, offTs, i)
    {
      var bar := path[i];
      var delta, call, put := DeltaAt(d, bar);
      var (executed, next) := RehedgeStep(d, bar, delta, s, i == 0, offTs);
      s := next;
      if executed {
        trades := trades + [HedgeTrade(bar.ts, bar.price, delta, s.qty)];
      }
      if i + 1 < |path| {
        pnl := pnl + s.qty * (path[i + 1].price - bar.price);
      }
    }
    TradesOnTarget(d, path, offTs, |path|);
  }

  // ----- What is traded, and when ------------------------------------------

  /** What a quantity leaves of a net delta: nothing; the band, on the delta's side;
      or a fixed share of it. */
  predicate OnTarget(h: HedgeSpec, delta: real, qty: real) {
    match h.target
    case Zero => qty + delta == 0.0
    case BandEdge =>
      var band := if h.deltaBand.Some? then h.deltaBand.value else 0.0;
      qty + delta == if delta < 0.0 then -band else band
    case Ratio(ratio) => qty + delta == (1.0 - ratio) * delta
  }

  lemma TargetIff(h: HedgeSpec, delta: real, qty: real)
    ensures OnTarget(h, delta, qty) <==> qty == TargetQty(h, delta)
  {}

  /** The interval is on, and over since the last trade. */
  predicate Elapsed(h: HedgeSpec, last: HedgeTrade, ts: int) {
    && h.intervalMinutes.Some? && h.intervalMinutes.value != 0.0
    && last.ts as real + 60.0 * h.intervalMinutes.value <= ts as real
  }

  /** The net delta is a band or more away from that of the last trade. */
  predicate Drifted(h: HedgeSpec, last: HedgeTrade, delta: real) {
    h.deltaBand.Some? && (delta >= last.delta + h.deltaBand.value || delta <= last.delta - h.deltaBand.value)
  }

  /** The underlying is sigmaN standard deviations of its last traded level or more
      away from it. */
  predicate Moved(d: Day, last: HedgeTrade, bar: Bar) {
    d.hedge.sigmaEnabled && d.pricing.iv.Some? &&
    var sigma := last.underlying * d.pricing.iv.value * d.pricing.rootTime(bar.ts);
    sigma > 0.0 && (bar.price >= last.underlying + d.hedge.sigmaN * sigma
                    || bar.price <= last.underlying - d.hedge.sigmaN * sigma)
  }

  /** A bar on which `change` can be traded: the spread is within a percentage of the
      price or a number of ticks, both sides are deep enough, the trade is large enough. */
  predicate Tradable(c: Condition, bar: Bar, change: real, tick: real) {
    match c
    case MaxSpread(pct, minTicks) =>
      bar.bid.Some? && bar.ask.Some? &&
      var spread := bar.ask.value - bar.bid.value;
      100.0 * spread <= pct * bar.price || spread <= minTicks * tick
    case MinQuoteSize(size) =>
      bar.bidSize.Some? && bar.askSize.Some? && size <= bar.bidSize.value && size <= bar.askSize.value
    case MinRehedgeDelta(threshold) => change >= threshold || -change >= threshold
  }

  /** On this bar before the endpoint a trade to qty is due, and all conditions let
      it through. */
  predicate Due(d: Day, last: HedgeTrade, bar: Bar, delta: real, qty: real, endpoint: int) {
    && bar.ts < endpoint
    && (Elapsed(d.hedge, last, bar.ts) || Drifted(d.hedge, last, delta) || Moved(d, last, bar))
    && forall i :: 0 <= i < |d.hedge.conditions| ==> Tradable(d.hedge.conditions[i], bar, qty - last.qty, d.tick)
  }

  function StateOf(last: HedgeTrade): HedgeState {
    HedgeState(last.qty, last.ts, last.delta, last.underlying)
  }

  lemma ConsideredIff(d: Day, last: HedgeTrade, bar: Bar, delta: real)
    ensures Considered(d.hedge, StateOf(last), bar.ts, delta, bar.price, SigmaAt(d.pricing, last.underlying, bar.ts)) <==>
            Elapsed(d.hedge, last, bar.ts) || Drifted(d.hedge, last, delta) || Moved(d, last, bar)
  {}

  lemma PassesIff(c: Condition, bar: Bar, change: real, tick: real)
    ensures Passes(c, bar, change, tick) <==> Tradable(c, bar, change, tick)
  {}

  lemma ExecutesIff(d: Day, last: HedgeTrade, bar: Bar, delta: real, endpoint: int)
    ensures Executes(d, bar, delta, StateOf(last), false, endpoint) <==>
            Due(d, last, bar, delta, TargetQty(d.hedge, delta), endpoint)
  {
    hide Considered, SigmaAt, Elapsed, Drifted, Moved, Passes, Tradable, TargetQty;
    ConsideredIff(d, last, bar, delta);
    var change := TargetQty(d.hedge, delta) - last.qty;
    forall i | 0 <= i < |d.hedge.conditions|
      ensures Passes(d.hedge.conditions[i], bar, change, d.tick) <==> Tradable(d.hedge.conditions[i], bar, change, d.tick)
    {
      PassesIff(d.hedge.conditions[i], bar, change, d.tick);
    }
  }

  /** The entry trades; from then on the state carried is that of the last trade. */
  lemma {:induction false} LastTrade(d: Day, path: seq<Bar>, endpoint: int, i: nat)
    requires 1 <= i <= |path|
    ensures var w := Walk(d, path, endpoint, i);
            |w.trades| > 0 && w.s == StateOf(w.trades[|w.trades| - 1])
  {
    hide NetDelta, TargetQty, Considered, Passes;
    if i > 1 {
      LastTrade(d, path, endpoint, i - 1);
    }
  }

  /** The first trade is the entry's, at its price, whatever the conditions. */
  lemma EntryTraded(d: Day, path: seq<Bar>, endpoint: int)
    requires |path| > 0
    ensures var w, delta := Walk(d, path, endpoint, 1), NetDelta(d, path[0]);
            && |w.trades| == 1 && OnTarget(d.hedge, delta, w.trades[0].qty)
            && w.trades[0] == HedgeTrade(path[0].ts, path[0].price, delta, w.trades[0].qty)
  {
    hide NetDelta, OnTarget, TargetQty, Considered;
    TargetIff(d.hedge, NetDelta(d, path[0]), TargetQty(d.hedge, NetDelta(d, path[0])));
  }

  /** On a later bar a trade is recorded exactly when one to the target is due
      against the last one; it is at the bar's price, and nothing else is recorded. */
  lemma TradedWhenDue(d: Day, path: seq<Bar>, endpoint: int, i: nat)
    requires 1 <= i < |path|
    ensures var w, w', delta := Walk(d, path, endpoint, i), Walk(d, path, endpoint, i + 1), NetDelta(d, path[i]);
            && |w.trades| > 0
            && (w'.trades != w.trades <==>
                exists q :: OnTarget(d.hedge, delta, q) && Due(d, w.trades[|w.trades| - 1], path[i], delta, q, endpoint))
            && (w'.trades != w.trades ==>
                exists q :: OnTarget(d.hedge, delta, q)
                            && w'.trades == w.trades + [HedgeTrade(path[i].ts, path[i].price, delta, q)])
  {
    hide NetDelta, OnTarget, TargetQty, Executes, Due;
    LastTrade(d, path, endpoint, i);
    var w, delta := Walk(d, path, endpoint, i), NetDelta(d, path[i]);
    var last := w.trades[|w.trades| - 1];
    ExecutesIff(d, last, path[i], delta, endpoint);
    forall q ensures OnTarget(d.hedge, delta, q) <==> q == TargetQty(d.hedge, delta) {
      TargetIff(d.hedge, delta, q);
    }
    assert OnTarget(d.hedge, delta, TargetQty(d.hedge, delta));
  }

  /** Every recorded trade leaves of the net delta what the target says. */
  lemma {:induction false} TradesOnTarget(d: Day, path: seq<Bar>, endpoint: int, i: nat)
    requires i <= |path|
    ensures forall k :: 0 <= k < |Walk(d, path, endpoint, i).trades| ==>
              var trade := Walk(d, path, endpoint, i).trades[k]; OnTarget(d.hedge, trade.delta, trade.qty)
  {
    hide NetDelta, OnTarget, TargetQty, Executes;
    if i > 0 {
      TradesOnTarget(d, path, endpoint, i - 1);
      var delta := NetDelta(d, path[i - 1]);
      TargetIff(d.hedge, delta, TargetQty(d.hedge, delta));
    }
  }

  // ----- The blotter identity ----------------------------------------------

  /** The cash paid for the recorded quantity changes, from quantity q. */
  function Paid(trades: seq<HedgeTrade>): real {
    if trades == [] then 0.0
    else
      var n := |trades| - 1;
      Paid(trades[..n]) + (trades[n].qty - QtyAfter(trades[..n])) * trades[n].underlying
  }

  function QtyAfter(trades: seq<HedgeTrade>): real {
    if trades == [] then 0.0 else trades[|trades| - 1].qty
  }

  lemma BlotterStep(q: real, q': real, p: real, p': real, paid: real)
    ensures (q * p - paid) + q' * (p' - p) == q' * p' - (paid + (q' - q) * p)
  {}

  /** A step either leaves the position alone or records the trade that sets it. */
  lemma StepShape(d: Day, path: seq<Bar>, endpoint: int, t: Tally, i: nat)
    requires i + 1 < |path|
    ensures var t' := WalkStep(d, path, endpoint, t, i);
            && t'.pnl == t.pnl + t'.s.qty * (path[i + 1].price - path[i].price)
            && (|| (t'.s == t.s && t'.trades == t.trades)
                || (|t'.trades| == |t.trades| + 1 && t'.trades[..|t.trades|] == t.trades
                    && t'.trades[|t.trades|].qty == t'.s.qty && t'.trades[|t.trades|].underlying == path[i].price))
  {}

  lemma {:induction false} BlotterUpTo(d: Day, path: seq<Bar>, endpoint: int, i: nat)
    requires i < |path|
    ensures var w := Walk(d, path, endpoint, i);
            w.s.qty == QtyAfter(w.trades) && w.pnl == w.s.qty * path[i].price - Paid(w.trades)
  {
    hide WalkStep;
    if i > 0 {
      BlotterUpTo(d, path, endpoint, i - 1);
      var w, w' := Walk(d, path, endpoint, i - 1), Walk(d, path, endpoint, i);
      StepShape(d, path, endpoint, w, i - 1);
      BlotterStep(w.s.qty, w'.s.qty, path[i - 1].price, path[i].price, Paid(w.trades));
      assert (w.s.qty - w.s.qty) * path[i - 1].price == 0.0;
    }
  }

  /** The path-summed hedge P&L is the closing value of the final quantity less
      what the recorded trades paid; the close itself is not a recorded trade. */
  lemma BlotterIdentity(d: Day, offTs: int, offPrice: real)
    ensures var path := Path(d, offTs, offPrice);
            var w := Walk(d, path, offTs, |path|);
            && w.pnl == QtyAfter(w.trades) * offPrice - Paid(w.trades)
            && (d.onTs < offTs ==> forall k :: 0 <= k < |w.trades| ==> w.trades[k].ts < offTs)
  {
    hide Walk, Interior, Paid, QtyAfter;
    var path := Path(d, offTs, offPrice);
    BlotterUpTo(d, path, offTs, |path| - 1);
    if d.onTs < offTs {
      TradesBefore(d, path, offTs, |path|);
    }
    LastStep(d, path, offTs);
  }

  /** Nothing is traded or earned at the endpoint. */
  lemma LastStep(d: Day, path: seq<Bar>, endpoint: int)
    requires |path| > 1 && path[|path| - 1].ts == endpoint
    ensures Walk(d, path, endpoint, |path|) == Walk(d, path, endpoint, |path| - 1)
  {
    hide NetDelta, TargetQty, Considered;
  }

  lemma {:induction false} TradesBefore(d: Day, path: seq<Bar>, endpoint: int, i: nat)
    requires i <= |path| && (|path| > 0 ==> path[0].ts < endpoint)
    ensures forall k :: 0 <= k < |Walk(d, path, endpoint, i).trades| ==> Walk(d, path, endpoint, i).trades[k].ts < endpoint
  {
    hide NetDelta, TargetQty, Considered;
    if i > 0 {
      TradesBefore(d, path, endpoint, i - 1);
    }
  }

  // ----- Early-exit triggers -----------------------------------------------

  datatype Unit = Points | Percent | Usd
  datatype Direction = Profit | Loss | Both
  datatype Trigger = UnderlyingMove(amount: real, percent: bool) | SigmaMove(n: real)
                   | NetDeltaTrigger(threshold: real) | Pnl(amount: real, unit: Unit, direction: Direction)

  /** The entry facts that the trigger scan needs beyond the hedge's. */
  datatype Scan = Scan(triggers: seq<Trigger>, sideSign: real, entryPremium: real, multiplier: real)

  datatype Exit = Exit(kind: Trigger, ts: int, value: real)

  function PnlIn(unit: Unit, sc: Scan, pnl: real): real {
    match unit
    case Points => pnl
    case Percent => if sc.entryPremium != 0.0 then pnl / sc.entryPremium * 100.0 else 0.0
    case Usd => pnl * sc.multiplier
  }

  function EvalTrigger(trig: Trigger, sc: Scan, price: real, entry: real, delta: real, pnl: real,
                       sigma: Option<real>): Option<real>
    requires entry > 0.0
  {
    var move := AbsReal(price - entry);
    match trig
    case UnderlyingMove(amount, percent) =>
      if move < (if percent then amount / 100.0 * entry else amount) then None
      else Some(if percent then move / entry * 100.0 else move)
    case SigmaMove(n) =>
      if sigma.None? || sigma.value <= 0.0 || move < n * sigma.value then None else Some(move / sigma.value)
    case NetDeltaTrigger(threshold) => if AbsReal(delta) >= threshold then Some(AbsReal(delta)) else None
    case Pnl(amount, unit, direction) =>
      var p := PnlIn(unit, sc, pnl);
      var fired := match direction
        case Profit => p >= amount
        case Loss => p <= -amount
        case Both => AbsReal(p) >= amount;
      if fired then Some(p) else None
  }

  /** Option mark-to-market since the entry plus the hedge's P&L so far. */
  function PositionPnl(sc: Scan, call: real, put: real, hedgePnl: real): real {
    sc.sideSign * (call + put - sc.entryPremium) + hedgePnl
  }

  /** The first of the triggers n.. to fire at a point reached with hedge P&L pnl. */
  function FirstTrigger(d: Day, sc: Scan, bar: Bar, pnl: real, n: nat): Option<Exit>
    requires n <= |sc.triggers| && d.onPrice > 0.0
    decreases |sc.triggers| - n
  {
    if n == |sc.triggers| then None
    else
      var call, put := Mark(d.calls, bar.ts, d.callFallback), Mark(d.puts, bar.ts, d.putFallback);
      var v := EvalTrigger(sc.triggers[n], sc, bar.price, d.onPrice, NetDelta(d, bar), PositionPnl(sc, call, put, pnl),
                           SigmaAt(d.pricing, d.onPrice, bar.ts));
      if v.Some? then Some(Exit(sc.triggers[n], bar.ts, v.value)) else FirstTrigger(d, sc, bar, pnl, n + 1)
  }

  /** The P&L a trigger sees: the hedge's so far, or none when it is off. */
  function SeenPnl(d: Day, path: seq<Bar>, endpoint: int, i: nat): real
    requires i <= |path|
  {
    if d.hedge.enabled then Walk(d, path, endpoint, i).pnl else 0.0
  }

  /** The first fire on points 1..n of the path. */
  function FireBy(d: Day, sc: Scan, path: seq<Bar>, endpoint: int, n: nat): Option<Exit>
    requires n < |path| && d.onPrice > 0.0
  {
    if n == 0 then None
    else
      var f := FireBy(d, sc, path, endpoint, n - 1);
      if f.Some? then f else FirstTrigger(d, sc, path[n], SeenPnl(d, path, endpoint, n), 0)
  }

  /** The endpoint's price: the last known ES bar, or else the nearest one. */
  function EndPrice(d: Day, exitTs: int): real {
    var k := LastKnown(d.es, exitTs);
    if k.Some? then k.value.price
    else if d.es == [] then d.onPrice
    else Nearest(d.es, exitTs).price
  }

  function Gap(b: Bar, ts: int): (g: int)
    ensures g >= 0 && (g == ts - b.ts || g == b.ts - ts)
  {
    if b.ts < ts then ts - b.ts else b.ts - ts
  }

  /** The earliest of the bars closest to ts. */
  function Nearest(bars: seq<Bar>, ts: int): Bar
    requires bars != []
  {
    var n := |bars| - 1;
    if n == 0 then bars[0]
    else
      var b := Nearest(bars[..n], ts);
      if Gap(bars[n], ts) < Gap(b, ts) then bars[n] else b
  }

  predicate Near(b: Bar, ts: int, seconds: real) {
    ts as real - seconds <= b.ts as real <= ts as real + seconds
  }

  /** A bar at ts up to `tolerance` minutes away. */
  predicate Within(b: Bar, ts: int, tolerance: Option<real>) {
    tolerance.Some? ==> Gap(b, ts) as real <= tolerance.value * 60.0
  }

  method SnapNearest(bars: seq<Bar>, ts: int, tolerance: Option<real>) returns (best: Option<Bar>)
    ensures best.None? <==> forall b :: b in bars ==> !Within(b, ts, tolerance)
    ensures best.Some? ==> best.value == Nearest(bars, ts)
    ensures best.Some? ==> best.value in bars && forall b :: b in bars ==> Gap(best.value, ts) <= Gap(b, ts)
    ensures tolerance.None? ==> (best.None? <==> bars == [])
    ensures best.Some? && tolerance.Some? ==> Near(best.value, ts, 60.0 * tolerance.value)
    ensures best.None? && tolerance.Some? ==> forall b :: b in bars ==> !Near(b, ts, 60.0 * tolerance.value)
  {
    best := None;
    for i := 0 to |bars|
      invariant best.Some? <==> i > 0
      invariant i > 0 ==> best.value == Nearest(bars[..i], ts) && best.value in bars
      invariant i > 0 ==> forall j :: 0 <= j < i ==> Gap(best.value, ts) <= Gap(bars[j], ts)
    {
      assert bars[..i + 1][..i] == bars[..i];
      if best.None? || Gap(bars[i], ts) < Gap(best.value, ts) {
        best := Some(bars[i]);
      }
    }
    assert bars[..|bars|] == bars;
    if best.Some? && !Within(best.value, ts, tolerance) {
      best := None;
    }
  }

  /** The price at the tentative close. */
  method EsAt(d: Day, ts: int) returns (price: real)
    ensures price == EndPrice(d, ts)
  {
    var off := LastKnownAtOrBefore(d.es, ts);
    if off.None? {
      off := SnapNearest(d.es, ts, None);
      assert d.es != [] ==> d.es[0] in d.es && Within(d.es[0], ts, None);
    }
    price := if off.Some? then off.value.price else d.onPrice;
  }

  /** Walk the same points as the hedge up to the scheduled exit, and return the
      first trigger to fire after the entry. */
  method FindTriggerFire(d: Day, sc: Scan, exitTs: int) returns (fire: Option<Exit>)
    ensures sc.triggers == [] || d.onPrice <= 0.0 ==> fire == None
    ensures sc.triggers != [] && d.onPrice > 0.0 ==>
              var path := Path(d, exitTs, EndPrice(d, exitTs));
              fire == FireBy(d, sc, path, exitTs, |path| - 1)
  {
    hide Path, NetDelta, RehedgeStep, Mark, EvalTrigger, FirstTrigger, EndPrice;
    if sc.triggers == [] || d.onPrice <= 0.0 {
      return None;
    }
    var offPrice := EsAt(d, exitTs);
    var path := BuildPath(d, exitTs, offPrice);
    var s, pnl := HedgeState(0.0, d.onTs, 0.0, d.onPrice), 0.0;
    for i := 0 to |path|
      invariant i > 0 ==> FireBy(d, sc, path, exitTs, i - 1) == None
      invariant d.hedge.enabled ==> Walk(d, path, exitTs, i).s == s && Walk(d, path, exitTs, i).pnl == pnl
      invariant pnl == SeenPnl(d, path, exitTs, i)
    {
      var bar := path[i];
      var delta, call, put := DeltaAt(d, bar);
      if i > 0 {
        fire := EvalTriggers(d, sc, bar, delta, call, put, pnl);
        if fire.Some? {
          FireStays(d, sc, path, exitTs, i, |path| - 1);
          return;
        }
      }
      if d.hedge.enabled {
        var (executed, next) := RehedgeStep(d, bar, delta, s, i == 0, exitTs);
        s := next;
        if i + 1 < |path| {
          pnl := pnl + s.qty * (path[i + 1].price - bar.price);
        }
      }
    }
    fire := None;
  }

  method EvalTriggers(d: Day, sc: Scan, bar: Bar, delta: real, call: real, put: real, pnl: real)
    returns (fire: Option<Exit>)
    requires d.onPrice > 0.0 && delta == NetDelta(d, bar)
    requires call == Mark(d.calls, bar.ts, d.callFallback) && put == Mark(d.puts, bar.ts, d.putFallback)
    ensures fire == FirstTrigger(d, sc, bar, pnl, 0)
  {
    hide NetDelta, Mark, EvalTrigger, PositionPnl, SigmaAt;
    for n := 0 to |sc.triggers|
      invariant FirstTrigger(d, sc, bar, pnl, 0) == FirstTrigger(d, sc, bar, pnl, n)
    {
      var v := EvalTrigger(sc.triggers[n], sc, bar.price, d.onPrice, delta, PositionPnl(sc, call, put, pnl),
                           SigmaAt(d.pricing, d.onPrice, bar.ts));
      if v.Some? {
        return Some(Exit(sc.triggers[n], bar.ts, v.value));
      }
    }
    fire := None;
  }

  lemma {:induction false} FireStays(d: Day, sc: Scan, path: seq<Bar>, endpoint: int, n: nat, m: nat)
    requires n <= m < |path| && d.onPrice > 0.0 && FireBy(d, sc, path, endpoint, n).Some?
    ensures FireBy(d, sc, path, endpoint, m) == FireBy(d, sc, path, endpoint, n)
  {
    hide FirstTrigger, SeenPnl;
    if n < m {
      FireStays(d, sc, path, endpoint, n, m - 1);
    }
  }

  // ----- What fires --------------------------------------------------------

  /** v is the quantity that a trigger watches, and it is past the trigger's level:
      the distance from the entry in points, percent of it or standard deviations;
      the size of the delta; or the P&L in its unit, up, down or either way. */
  predicate Met(trig: Trigger, sc: Scan, price: real, entry: real, delta: real, pnl: real, sigma: Option<real>, v: real) {
    match trig
    case UnderlyingMove(amount, percent) =>
      v >= amount && (if percent then v * entry == 100.0 * AbsReal(price - entry) else v == AbsReal(price - entry))
    case SigmaMove(n) => v >= n && sigma.Some? && sigma.value > 0.0 && v * sigma.value == AbsReal(price - entry)
    case NetDeltaTrigger(threshold) => v >= threshold && v == AbsReal(delta)
    case Pnl(amount, unit, direction) =>
      && (match unit
          case Points => v == pnl
          case Percent => if sc.entryPremium == 0.0 then v == 0.0 else v * sc.entryPremium == 100.0 * pnl
          case Usd => v == sc.multiplier * pnl)
      && (match direction
          case Profit => v >= amount
          case Loss => -v >= amount
          case Both => v >= amount || -v >= amount)
  }

  lemma Ordered(x: real, y: real, k: real)
    requires k > 0.0
    ensures x >= y <==> x * k >= y * k
  {
    if x >= y { assert (x - y) * k >= 0.0; } else { assert (y - x) * k > 0.0; }
  }

  /** v is x in units of k. */
  lemma InUnits(v: real, x: real, k: real)
    requires k != 0.0
    ensures v == x / k <==> v * k == x
  {
    if v * k == x { Cancel(v, x / k, k); }
  }

  lemma InPercent(v: real, x: real, k: real)
    requires k != 0.0
    ensures v == x / k * 100.0 <==> v * k == 100.0 * x
  {
    var p := x / k;
    assert p * k == x;
    assert (p * 100.0) * k == 100.0 * (p * k);
    if v * k == 100.0 * x { Cancel(v, p * 100.0, k); }
  }

  lemma PercentLevel(move: real, entry: real, amount: real)
    requires entry > 0.0
    ensures move >= amount / 100.0 * entry <==> move / entry * 100.0 >= amount
  {
    var v, level := move / entry * 100.0, amount / 100.0 * entry;
    InPercent(v, move, entry);
    assert 100.0 * level == amount * entry;
    Ordered(v, amount, entry);
  }

  lemma SigmaLevel(move: real, sigma: real, n: real)
    requires sigma > 0.0
    ensures move >= n * sigma <==> move / sigma >= n
  {
    assert (move / sigma) * sigma == move;
    Ordered(move / sigma, n, sigma);
  }

  lemma PnlIs(unit: Unit, sc: Scan, pnl: real, v: real)
    ensures v == PnlIn(unit, sc, pnl) <==>
            match unit
            case Points => v == pnl
            case Percent => if sc.entryPremium == 0.0 then v == 0.0 else v * sc.entryPremium == 100.0 * pnl
            case Usd => v == sc.multiplier * pnl
  {
    if sc.entryPremium != 0.0 {
      InPercent(v, pnl, sc.entryPremium);
    }
  }

  /** A trigger fires exactly when it is met, with the quantity it watches. */
  lemma EvalIff(trig: Trigger, sc: Scan, price: real, entry: real, delta: real, pnl: real, sigma: Option<real>, v: real)
    requires entry > 0.0
    ensures EvalTrigger(trig, sc, price, entry, delta, pnl, sigma) == Some(v) <==>
            Met(trig, sc, price, entry, delta, pnl, sigma, v)
  {
    hide AbsReal, PnlIn;
    match trig
    case UnderlyingMove(_, _) => MoveIff(trig, sc, price, entry, delta, pnl, sigma, v);
    case SigmaMove(_) => SigmaIff(trig, sc, price, entry, delta, pnl, sigma, v);
    case NetDeltaTrigger(_) =>
    case Pnl(_, unit, _) => PnlIff(trig, sc, price, entry, delta, pnl, sigma, v);
  }

  lemma MoveIff(trig: Trigger, sc: Scan, price: real, entry: real, delta: real, pnl: real, sigma: Option<real>, v: real)
    requires entry > 0.0 && trig.UnderlyingMove?
    ensures EvalTrigger(trig, sc, price, entry, delta, pnl, sigma) == Some(v) <==>
            Met(trig, sc, price, entry, delta, pnl, sigma, v)
  {
    hide AbsReal;
    PercentLevel(AbsReal(price - entry), entry, trig.amount);
    InPercent(v, AbsReal(price - entry), entry);
  }

  lemma SigmaIff(trig: Trigger, sc: Scan, price: real, entry: real, delta: real, pnl: real, sigma: Option<real>, v: real)
    requires entry > 0.0 && trig.SigmaMove?
    ensures EvalTrigger(trig, sc, price, entry, delta, pnl, sigma) == Some(v) <==>
            Met(trig, sc, price, entry, delta, pnl, sigma, v)
  {
    hide AbsReal;
    if sigma.Some? && sigma.value > 0.0 {
      SigmaLevel(AbsReal(price - entry), sigma.value, trig.n);
      InUnits(v, AbsReal(price - entry), sigma.value);
    }
  }

  lemma PnlIff(trig: Trigger, sc: Scan, price: real, entry: real, delta: real, pnl: real, sigma: Option<real>, v: real)
    requires entry > 0.0 && trig.Pnl?
    ensures EvalTrigger(trig, sc, price, entry, delta, pnl, sigma) == Some(v) <==>
            Met(trig, sc, price, entry, delta, pnl, sigma, v)
  {
    PnlIs(trig.unit, sc, pnl, v);
    hide PnlIn;
  }

  /** Trigger k is met at point m of the path, with value v. */
  predicate MetAt(d: Day, sc: Scan, path: seq<Bar>, endpoint: int, m: nat, k: nat, v: real)
    requires m < |path| && k < |sc.triggers|
  {
    var bar := path[m];
    var call, put := Mark(d.calls, bar.ts, d.callFallback), Mark(d.puts, bar.ts, d.putFallback);
    var pnl := PositionPnl(sc, call, put, SeenPnl(d, path, endpoint, m));
    Met(sc.triggers[k], sc, bar.price, d.onPrice, NetDelta(d, bar), pnl, SigmaAt(d.pricing, d.onPrice, bar.ts), v)
  }

  /** A long straddle gains what its marks gain on the premium paid, a short one
      loses it, and the hedge's P&L adds to either. */
  lemma PositionIs(sc: Scan, call: real, put: real, hedgePnl: real)
    ensures sc.sideSign == 1.0 ==> PositionPnl(sc, call, put, hedgePnl) == call + put - sc.entryPremium + hedgePnl
    ensures sc.sideSign == -1.0 ==> PositionPnl(sc, call, put, hedgePnl) == sc.entryPremium - call - put + hedgePnl
  {}

  lemma MetIff(d: Day, sc: Scan, path: seq<Bar>, endpoint: int, m: nat, k: nat, v: real)
    requires m < |path| && k < |sc.triggers| && d.onPrice > 0.0
    ensures MetAt(d, sc, path, endpoint, m, k, v) <==>
            EvalAt(d, sc, path[m], SeenPnl(d, path, endpoint, m), k) == Some(v)
  {
    hide NetDelta, Mark, EvalTrigger, SigmaAt, SeenPnl, Met;
    var bar := path[m];
    var call, put := Mark(d.calls, bar.ts, d.callFallback), Mark(d.puts, bar.ts, d.putFallback);
    var pnl := PositionPnl(sc, call, put, SeenPnl(d, path, endpoint, m));
    EvalIff(sc.triggers[k], sc, bar.price, d.onPrice, NetDelta(d, bar), pnl, SigmaAt(d.pricing, d.onPrice, bar.ts), v);
  }

  lemma {:induction false} FirstIff(d: Day, sc: Scan, path: seq<Bar>, endpoint: int, m: nat, n: nat)
    requires m < |path| && n <= |sc.triggers| && d.onPrice > 0.0
    ensures var f := FirstTrigger(d, sc, path[m], SeenPnl(d, path, endpoint, m), n);
            if f.None? then forall k, v :: n <= k < |sc.triggers| ==> !MetAt(d, sc, path, endpoint, m, k, v)
            else exists k :: && n <= k < |sc.triggers| && f.value == Exit(sc.triggers[k], path[m].ts, f.value.value)
                             && MetAt(d, sc, path, endpoint, m, k, f.value.value)
                             && forall j, v :: n <= j < k ==> !MetAt(d, sc, path, endpoint, m, j, v)
    decreases |sc.triggers| - n
  {
    hide NetDelta, Mark, EvalTrigger, SigmaAt, SeenPnl, MetAt;
    if n < |sc.triggers| {
      FirstIff(d, sc, path, endpoint, m, n + 1);
      forall v ensures MetAt(d, sc, path, endpoint, m, n, v) <==> EvalAt(d, sc, path[m], SeenPnl(d, path, endpoint, m), n) == Some(v)
      {
        MetIff(d, sc, path, endpoint, m, n, v);
      }
      var f := EvalAt(d, sc, path[m], SeenPnl(d, path, endpoint, m), n);
      if f.Some? {
        assert MetAt(d, sc, path, endpoint, m, n, f.value);
      }
    }
  }

  function EvalAt(d: Day, sc: Scan, bar: Bar, pnl: real, n: nat): Option<real>
    requires n < |sc.triggers| && d.onPrice > 0.0
  {
    EvalTrigger(sc.triggers[n], sc, bar.price, d.onPrice, NetDelta(d, bar),
                PositionPnl(sc, Mark(d.calls, bar.ts, d.callFallback), Mark(d.puts, bar.ts, d.putFallback), pnl),
                SigmaAt(d.pricing, d.onPrice, bar.ts))
  }

  /** No trigger is met on points 1..m-1, nor one before the k-th at point m. */
  ghost predicate NothingBefore(d: Day, sc: Scan, path: seq<Bar>, endpoint: int, m: nat, k: nat)
    requires m < |path| && k <= |sc.triggers|
  {
    && (forall l, j, v :: 1 <= l < m && 0 <= j < |sc.triggers| ==> !MetAt(d, sc, path, endpoint, l, j, v))
    && (forall j, v :: 0 <= j < k ==> !MetAt(d, sc, path, endpoint, m, j, v))
  }

  /** The scan of the points up to n returns the trigger that is met first, and the
      first of those met at the same point; it is silent exactly when none is met. */
  lemma {:induction false} FireIff(d: Day, sc: Scan, path: seq<Bar>, endpoint: int, n: nat)
    requires n < |path| && d.onPrice > 0.0
    ensures var f := FireBy(d, sc, path, endpoint, n);
            if f.None? then forall m, k, v :: 1 <= m <= n && 0 <= k < |sc.triggers| ==> !MetAt(d, sc, path, endpoint, m, k, v)
            else exists m, k :: && 1 <= m <= n && 0 <= k < |sc.triggers|
                                && f.value == Exit(sc.triggers[k], path[m].ts, f.value.value)
                                && MetAt(d, sc, path, endpoint, m, k, f.value.value)
                                && NothingBefore(d, sc, path, endpoint, m, k)
  {
    hide MetAt, FirstTrigger, SeenPnl;
    if n > 0 {
      FireIff(d, sc, path, endpoint, n - 1);
      FirstIff(d, sc, path, endpoint, n, 0);
    }
  }

  // ----- Two walks in step -------------------------------------------------

  /** Bars known at a time just before the earlier endpoint are interior to both. */
  lemma {:induction false} InteriorPrefix(bars: seq<Bar>, lo: int, near: int, far: int)
    requires Ascending(bars) && near <= far
    ensures Interior(bars, lo, near) <= Interior(bars, lo, far)
    ensures forall i :: |Interior(bars, lo, near)| <= i < |Interior(bars, lo, far)| ==>
              Interior(bars, lo, far)[i].ts >= near
  {
    if bars != [] {
      var n := |bars| - 1;
      InteriorPrefix(bars[..n], lo, near, far);
      if lo < bars[n].ts < near {
        InteriorEarly(bars[..n], lo, near, far, bars[n].ts);
      }
    }
  }

  lemma {:induction false} InteriorEarly(bars: seq<Bar>, lo: int, near: int, far: int, ts: int)
    requires ts <= near <= far && forall i :: 0 <= i < |bars| ==> bars[i].ts < ts
    ensures Interior(bars, lo, near) == Interior(bars, lo, far)
  {
    if bars != [] {
      InteriorEarly(bars[..|bars| - 1], lo, near, far, ts);
    }
  }

  lemma StepsAgree(a: Day, b: Day, bar: Bar, delta: real, s: HedgeState, isEntry: bool, e: int, f: int)
    requires a.hedge == b.hedge && a.pricing == b.pricing && a.tick == b.tick
    requires isEntry || (bar.ts < e && bar.ts < f)
    ensures RehedgeStep(a, bar, delta, s, isEntry, e) == RehedgeStep(b, bar, delta, s, isEntry, f)
  {}

  /** One step depends on the point, the next point's price, and whether the point
      lies before the endpoint. */
  lemma {:induction false} WalksAgree(a: Day, b: Day, p: seq<Bar>, q: seq<Bar>, e: int, f: int, n: nat)
    requires n < |p| && n < |q| && p[..n + 1] == q[..n + 1]
    requires forall i :: 1 <= i < n ==> p[i].ts < e && p[i].ts < f
    requires forall i :: 0 <= i < n ==> NetDelta(a, p[i]) == NetDelta(b, p[i])
    requires a.hedge == b.hedge && a.pricing == b.pricing && a.tick == b.tick
    requires a.onTs == b.onTs && a.onPrice == b.onPrice
    ensures Walk(a, p, e, n) == Walk(b, q, f, n)
  {
    hide NetDelta, RehedgeStep;
    if n > 0 {
      StepsAgree(a, b, p[n - 1], NetDelta(a, p[n - 1]), Walk(a, p, e, n - 1).s, n == 1, e, f);
      assert p[..n] == p[..n + 1][..n] && q[..n] == q[..n + 1][..n];
      WalksAgree(a, b, p, q, e, f, n - 1);
      assert p[n - 1] == p[..n + 1][n - 1] && p[n] == p[..n + 1][n];
    }
  }

  /** The realized hedge and the trigger mirror carry the same state, the same P&L
      so far and the same trades into every ES bar strictly before both endpoints,
      whatever the two endpoints and their prices are. */
  lemma MirrorAgrees(d: Day, offTs: int, offPrice: real, exitTs: int, exitPrice: real, i: nat)
    requires Ascending(d.es)
    requires var near := if offTs < exitTs then offTs else exitTs; i <= |Interior(d.es, d.onTs, near)|
    ensures var p, q := Path(d, offTs, offPrice), Path(d, exitTs, exitPrice);
            && i < |p| && i < |q| && p[i] == q[i]
            && Walk(d, p, offTs, i) == Walk(d, q, exitTs, i)
            && WalkedState(d, p, offTs, i) == WalkedState(d, q, exitTs, i)
  {
    hide Walk;
    var near := if offTs < exitTs then offTs else exitTs;
    var p, q := Path(d, offTs, offPrice), Path(d, exitTs, exitPrice);
    InteriorPrefix(d.es, d.onTs, near, offTs);
    InteriorPrefix(d.es, d.onTs, near, exitTs);
    var common := [Anchor(d.onTs, d.onPrice)] + Interior(d.es, d.onTs, near);
    assert common <= p && common <= q;
    assert p[..i + 1] == common[..i + 1] == q[..i + 1];
    WalksAgree(d, d, p, q, offTs, exitTs, i);
  }

  /** The hedge state that a walk leaves a point with. */
  function WalkedState(d: Day, path: seq<Bar>, endpoint: int, i: nat): HedgeState
    requires i < |path|
  {
    RehedgeStep(d, path[i], NetDelta(d, path[i]), Walk(d, path, endpoint, i).s, i == 0, endpoint).1
  }

  // ----- No look-ahead -----------------------------------------------------

  /** Two days with the same entry that show the same bars and marks up to t. */
  ghost predicate SameUpTo(a: Day, b: Day, t: int) {
    && a.onTs == b.onTs && a.onPrice == b.onPrice && a.callFallback == b.callFallback
    && a.putFallback == b.putFallback && a.pricing == b.pricing && a.hedge == b.hedge && a.tick == b.tick
    && Known(a.es, t) == Known(b.es, t) && Known(a.calls, t) == Known(b.calls, t)
    && Known(a.puts, t) == Known(b.puts, t)
  }

  lemma SameDelta(a: Day, b: Day, t: int, bar: Bar)
    requires SameUpTo(a, b, t) && bar.ts <= t
    ensures NetDelta(a, bar) == NetDelta(b, bar)
    ensures Mark(a.calls, bar.ts, a.callFallback) == Mark(b.calls, bar.ts, b.callFallback)
    ensures Mark(a.puts, bar.ts, a.putFallback) == Mark(b.puts, bar.ts, b.putFallback)
  {
    KnownEarlier(a.calls, b.calls, bar.ts, t);
    KnownEarlier(a.puts, b.puts, bar.ts, t);
  }

  lemma {:induction false} SameTriggers(a: Day, b: Day, t: int, sc: Scan, bar: Bar, pnl: real, n: nat)
    requires SameUpTo(a, b, t) && bar.ts <= t && n <= |sc.triggers| && a.onPrice > 0.0
    ensures FirstTrigger(a, sc, bar, pnl, n) == FirstTrigger(b, sc, bar, pnl, n)
    decreases |sc.triggers| - n
  {
    hide NetDelta, Mark, EvalTrigger, PositionPnl, SigmaAt;
    if n < |sc.triggers| {
      SameDelta(a, b, t, bar);
      SameTriggers(a, b, t, sc, bar, pnl, n + 1);
    }
  }

  /** For ascending bars the interior up to t is what is known at t. */
  lemma {:induction false} InteriorKnown(bars: seq<Bar>, lo: int, t: int, hi: int)
    requires Ascending(bars) && t < hi
    ensures Interior(bars, lo, t + 1) == Interior(Known(bars, t), lo, hi)
    ensures Interior(bars, lo, t + 1) <= Interior(bars, lo, hi)
  {
    hide Interior, Known;
    InteriorPrefix(bars, lo, t + 1, hi);
    var k := Known(bars, t);
    assert bars == k + bars[|k|..];
    forall i | |k| <= i < |bars| ensures bars[i].ts > t {
      if i > |k| { assert bars[|k|].ts < bars[i].ts; }
    }
    InteriorTail(k, bars[|k|..], lo, t);
    InteriorEarly(k, lo, t + 1, hi, t + 1);
  }

  lemma {:induction false} InteriorTail(k: seq<Bar>, rest: seq<Bar>, lo: int, t: int)
    requires forall i :: 0 <= i < |rest| ==> rest[i].ts > t
    ensures Interior(k + rest, lo, t + 1) == Interior(k, lo, t + 1)
  {
    if rest == [] {
      assert k + rest == k;
    } else {
      assert (k + rest)[..|k + rest| - 1] == k + rest[..|rest| - 1];
      InteriorTail(k, rest[..|rest| - 1], lo, t);
    }
  }

  /** The path up to t, entry anchor included. */
  function PathUpTo(d: Day, t: int): seq<Bar> {
    [Anchor(d.onTs, d.onPrice)] + Interior(d.es, d.onTs, t + 1)
  }

  lemma PathSplits(d: Day, t: int, exitTs: int, exitPrice: real)
    requires Ascending(d.es) && d.onTs <= t < exitTs
    ensures PathUpTo(d, t) <= Path(d, exitTs, exitPrice)
    ensures forall i :: 0 <= i < |PathUpTo(d, t)| ==> PathUpTo(d, t)[i].ts <= t
    ensures forall i :: |PathUpTo(d, t)| <= i < |Path(d, exitTs, exitPrice)| ==> Path(d, exitTs, exitPrice)[i].ts > t
  {
    InteriorPrefix(d.es, d.onTs, t + 1, exitTs);
  }

  lemma SamePathUpTo(a: Day, b: Day, t: int)
    requires SameUpTo(a, b, t) && Ascending(a.es) && Ascending(b.es)
    ensures PathUpTo(a, t) == PathUpTo(b, t)
  {
    InteriorKnown(a.es, a.onTs, t, t + 1);
    InteriorKnown(b.es, b.onTs, t, t + 1);
  }

  lemma {:induction false} SameFiresUpTo(a: Day, b: Day, t: int, sc: Scan, p: seq<Bar>, q: seq<Bar>, e: int, n: nat)
    requires SameUpTo(a, b, t) && a.onPrice > 0.0 && forall i :: 1 <= i < n && i < |p| ==> p[i].ts < e
    requires n < |p| && n < |q| && p[..n + 1] == q[..n + 1] && forall i :: 0 <= i <= n ==> p[i].ts <= t
    ensures FireBy(a, sc, p, e, n) == FireBy(b, sc, q, e, n)
  {
    hide Walk, FirstTrigger, NetDelta;
    if n > 0 {
      assert p[..n] == p[..n + 1][..n] && q[..n] == q[..n + 1][..n];
      SameFiresUpTo(a, b, t, sc, p, q, e, n - 1);
      forall i | 0 <= i < n ensures NetDelta(a, p[i]) == NetDelta(b, p[i]) {
        SameDelta(a, b, t, p[i]);
      }
      WalksAgree(a, b, p, q, e, e, n);
      assert p[n] == p[..n + 1][n] == q[n];
      SameTriggers(a, b, t, sc, p[n], SeenPnl(a, p, e, n), 0);
    }
  }

  lemma {:induction false} FirstTriggerTime(d: Day, sc: Scan, bar: Bar, pnl: real, n: nat)
    requires n <= |sc.triggers| && d.onPrice > 0.0
    ensures FirstTrigger(d, sc, bar, pnl, n).Some? ==> FirstTrigger(d, sc, bar, pnl, n).value.ts == bar.ts
    decreases |sc.triggers| - n
  {
    if n < |sc.triggers| {
      FirstTriggerTime(d, sc, bar, pnl, n + 1);
    }
  }

  lemma {:induction false} LateFire(d: Day, sc: Scan, p: seq<Bar>, e: int, k: nat, m: nat, t: int)
    requires k <= m < |p| && d.onPrice > 0.0 && FireBy(d, sc, p, e, k) == None
    requires forall i :: k < i < |p| ==> p[i].ts > t
    ensures FireBy(d, sc, p, e, m).Some? ==> FireBy(d, sc, p, e, m).value.ts > t
  {
    hide FirstTrigger, SeenPnl;
    if k < m {
      LateFire(d, sc, p, e, k, m - 1, t);
      FirstTriggerTime(d, sc, p[m], SeenPnl(d, p, e, m), 0);
    }
  }

  /** The outcome of a trigger scan up to the scheduled exit. */
  function Fired(d: Day, sc: Scan, exitTs: int): Option<Exit>
    requires d.onPrice > 0.0
  {
    var path := Path(d, exitTs, EndPrice(d, exitTs));
    FireBy(d, sc, path, exitTs, |path| - 1)
  }

  lemma InteriorNoLookAhead(a: Day, b: Day, t: int, sc: Scan, exitTs: int)
    requires SameUpTo(a, b, t) && Ascending(a.es) && Ascending(b.es) && a.onPrice > 0.0
    requires a.onTs <= t < exitTs
    ensures var fa, fb := Fired(a, sc, exitTs), Fired(b, sc, exitTs);
            && (fa.Some? && fa.value.ts <= t <==> fb.Some? && fb.value.ts <= t)
            && (fa.Some? && fa.value.ts <= t ==> fa == fb)
  {
    hide FireBy, Path, PathUpTo, EndPrice, Ascending, Known, Interior;
    var p, q := Path(a, exitTs, EndPrice(a, exitTs)), Path(b, exitTs, EndPrice(b, exitTs));
    PathSplits(a, t, exitTs, EndPrice(a, exitTs));
    PathSplits(b, t, exitTs, EndPrice(b, exitTs));
    SamePathUpTo(a, b, t);
    var k := UpToIndex(a, t);
    assert p[..k + 1] == PathUpTo(a, t) == q[..k + 1];
    forall i | 0 <= i <= k ensures p[i].ts <= t { assert p[i] == PathUpTo(a, t)[i]; }
    SameFiresUpTo(a, b, t, sc, p, q, exitTs, k);
    var f := FireBy(a, sc, p, exitTs, k);
    if f.Some? {
      FireStays(a, sc, p, exitTs, k, |p| - 1);
      FireStays(b, sc, q, exitTs, k, |q| - 1);
    } else {
      LateFire(a, sc, p, exitTs, k, |p| - 1, t);
      LateFire(b, sc, q, exitTs, k, |q| - 1, t);
    }
  }

  /** With the same endpoint price two days walk the same path to the exit. */
  lemma SamePath(a: Day, b: Day, exitTs: int, price: real)
    requires SameUpTo(a, b, exitTs) && Ascending(a.es) && Ascending(b.es) && a.onTs <= exitTs
    ensures Path(a, exitTs, price) == Path(b, exitTs, price)
    ensures forall i :: 0 <= i < |Path(a, exitTs, price)| ==> Path(a, exitTs, price)[i].ts <= exitTs
    ensures forall i :: 1 <= i < |Path(a, exitTs, price)| - 1 ==> Path(a, exitTs, price)[i].ts < exitTs
  {
    hide Interior, Known, Ascending;
    KnownEarlier(a.es, b.es, exitTs - 1, exitTs);
    InteriorKnown(a.es, a.onTs, exitTs - 1, exitTs);
    InteriorKnown(b.es, b.onTs, exitTs - 1, exitTs);
  }

  /** At the exit itself only the endpoint's price can differ. */
  lemma ExitNoLookAhead(a: Day, b: Day, sc: Scan, exitTs: int)
    requires SameUpTo(a, b, exitTs) && Ascending(a.es) && Ascending(b.es) && a.onPrice > 0.0 && a.onTs <= exitTs
    requires EndPrice(a, exitTs) == EndPrice(b, exitTs)
    ensures Fired(a, sc, exitTs) == Fired(b, sc, exitTs)
  {
    hide FireBy, Path, EndPrice, Ascending, Known, Interior;
    var p := Path(a, exitTs, EndPrice(a, exitTs));
    SamePath(a, b, exitTs, EndPrice(a, exitTs));
    SameFiresUpTo(a, b, exitTs, sc, p, p, exitTs, |p| - 1);
  }

  lemma KnownPrice(a: Day, b: Day, exitTs: int)
    requires Known(a.es, exitTs) == Known(b.es, exitTs) && Known(a.es, exitTs) != []
    ensures EndPrice(a, exitTs) == EndPrice(b, exitTs)
  {}

  /** Whether and how a trigger fires at or before t is unchanged by any bar or mark
      printed after t: before the scheduled exit always, and at it when some ES bar
      is known by then. */
  lemma NoLookAhead(a: Day, b: Day, t: int, sc: Scan, exitTs: int)
    requires SameUpTo(a, b, t) && Ascending(a.es) && Ascending(b.es) && a.onPrice > 0.0
    requires a.onTs <= t <= exitTs && (t == exitTs ==> Known(a.es, exitTs) != [])
    ensures var fa, fb := Fired(a, sc, exitTs), Fired(b, sc, exitTs);
            && (fa.Some? && fa.value.ts <= t <==> fb.Some? && fb.value.ts <= t)
            && (fa.Some? && fa.value.ts <= t ==> fa == fb)
  {
    hide Fired, Ascending;
    if t < exitTs {
      InteriorNoLookAhead(a, b, t, sc, exitTs);
    } else {
      KnownPrice(a, b, exitTs);
      ExitNoLookAhead(a, b, sc, exitTs);
    }
  }

  /** No bar or mark printed after the scheduled exit changes what fires. */
  ghost predicate BlindAfterExit(d: Day, exitTs: int)
    requires d.onPrice > 0.0
  {
    forall b: Day, sc: Scan :: SameUpTo(d, b, exitTs) && Ascending(b.es) ==>
      Fired(d, sc, exitTs) == Fired(b, sc, exitTs)
  }

  /** A day whose ES prints first after the exit, at another price. */
  function LatePrint(d: Day, exitTs: int, price: real): Day {
    d.(es := [Anchor(exitTs + 1, price)])
  }

  function MoveTrigger(amount: real): Scan {
    Scan([UnderlyingMove(amount, false)], 1.0, 0.0, 1.0)
  }

  /** With nothing known at the exit the path is the entry and the endpoint. */
  lemma LatePath(d: Day, exitTs: int, price: real)
    requires Ascending(d.es) && Known(d.es, exitTs) == []
    ensures Path(d, exitTs, price) == [Anchor(d.onTs, d.onPrice), Anchor(exitTs, price)]
  {
    forall i | 0 <= i < |d.es| ensures d.es[i].ts >= exitTs {
      if i > 0 { assert d.es[0].ts < d.es[i].ts; }
    }
    LateInterior(d.es, d.onTs, exitTs);
  }

  lemma {:induction false} LateInterior(bars: seq<Bar>, lo: int, hi: int)
    requires forall i :: 0 <= i < |bars| ==> bars[i].ts >= hi
    ensures Interior(bars, lo, hi) == []
  {
    if bars != [] {
      LateInterior(bars[..|bars| - 1], lo, hi);
    }
  }

  lemma LateFires(d: Day, exitTs: int, amount: real)
    requires Ascending(d.es) && Known(d.es, exitTs) == [] && d.onPrice > 0.0
    ensures Fired(d, MoveTrigger(amount), exitTs).Some? <==> AbsReal(EndPrice(d, exitTs) - d.onPrice) >= amount
  {
    hide EndPrice, AbsReal, Walk, NetDelta, Mark;
    var path := Path(d, exitTs, EndPrice(d, exitTs));
    LatePath(d, exitTs, EndPrice(d, exitTs));
    var pnl := SeenPnl(d, path, exitTs, 1);
    hide SeenPnl;
    assert FireBy(d, MoveTrigger(amount), path, exitTs, 0) == None;
    assert FirstTrigger(d, MoveTrigger(amount), path[1], pnl, 1) == None;
  }

  lemma LatePrice(d: Day, exitTs: int, price: real)
    ensures var b := LatePrint(d, exitTs, price);
            Ascending(b.es) && Known(b.es, exitTs) == [] && EndPrice(b, exitTs) == price
  {
    assert LatePrint(d, exitTs, price).es[..0] == [];
  }

  /** For a given day that holds exactly when some ES bar is known by the exit:
      otherwise the endpoint is priced off the nearest later one. */
  lemma BlindAfterExitIff(d: Day, exitTs: int)
    requires Ascending(d.es) && d.onPrice > 0.0 && d.onTs <= exitTs
    ensures BlindAfterExit(d, exitTs) <==> Known(d.es, exitTs) != []
  {
    hide Fired, EndPrice;
    if Known(d.es, exitTs) != [] {
      forall b: Day, sc: Scan | SameUpTo(d, b, exitTs) && Ascending(b.es)
        ensures Fired(d, sc, exitTs) == Fired(b, sc, exitTs)
      {
        KnownPrice(d, b, exitTs);
        ExitNoLookAhead(d, b, sc, exitTs);
      }
    } else {
      var amount := AbsReal(EndPrice(d, exitTs) - d.onPrice) + 1.0;
      var b := LatePrint(d, exitTs, d.onPrice + amount);
      LatePrice(d, exitTs, d.onPrice + amount);
      LateFires(d, exitTs, amount);
      LateFires(b, exitTs, amount);
      assert SameUpTo(d, b, exitTs);
      assert Fired(d, MoveTrigger(amount), exitTs) != Fired(b, MoveTrigger(amount), exitTs);
    }
  }

  lemma UpToIndex(d: Day, t: int) returns (k: nat)
    ensures |PathUpTo(d, t)| == k + 1
  {
    k := |Interior(d.es, d.onTs, t + 1)|;
  }
}
