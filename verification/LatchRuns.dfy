/** What every run of the latch protocol keeps: the trade ledger, the reset arms
    and the feedback of actual closes into the THEN-chain automata. */
module LatchRuns {
  import opened Wrappers
  import A = Automaton
  import opened LatchSpec

  // ----- One block through one bar -----------------------------------------

  /** One bar of entry i on its own, given the exit that clears it, if any. */
  function EntryNext(g: Signal, t: nat, i: nat, e: EntryState, f: Option<nat>): EntryState
    requires WellFormed(g) && t < g.T && i < |g.entries|
  {
    var (scanned, fire) := Scan(g, t, i, ClearedBy(e, f, t), e.latched && f.Some?);
    var e' := RearmEntry(g, t, i, Open(g, t, i, scanned, fire));
    if e'.latched then e'.(active := e'.active + [t]) else e'
  }

  function Clearer(g: Signal, t: nat, i: nat): Option<nat>
    requires WellFormed(g) && t < g.T && i < |g.entries|
  {
    FirstExit(g, t, Run(g, t).xs, i, |g.exits|)
  }

  lemma EntryRuns(g: Signal, t: nat, i: nat)
    requires WellFormed(g) && t < g.T && i < |g.entries|
    ensures Run(g, t + 1).es[i] == EntryNext(g, t, i, Run(g, t).es[i], Clearer(g, t, i))
  {}

  lemma ExitRuns(g: Signal, t: nat, j: nat)
    requires WellFormed(g) && t < g.T && j < |g.exits|
    ensures var s := Run(g, t);
            Run(g, t + 1).xs[j] == RearmExit(g, t, j,
              if ExitEffective(g, t, s, j) then Spent(s.xs[j], g.exits[j].binding, t) else s.xs[j])
    ensures ExitEffective(g, t, Run(g, t), j) ==> Loaded(g, t, Run(g, t).xs[j], j)
  {}

  /** The effect of one bar on the trade lists and the latch: a close by exit f,
      then an open when `allowed` and flat. */
  ghost predicate Traded(e: EntryState, e': EntryState, t: nat, f: Option<nat>, allowed: bool) {
    var flat := !e.latched || f.Some?;
    && e'.closes == (if e.latched && f.Some? then e.closes + [Close(t, f.value)] else e.closes)
    && e'.opens == (if allowed && flat then e.opens + [t] else e.opens)
    && e'.latched == ((allowed && flat) || !flat)
  }

  predicate FiresNow(g: Signal, t: nat, i: nat, e: EntryState, f: Option<nat>)
    requires WellFormed(g) && t < g.T && i < |g.entries|
  {
    Scan(g, t, i, ClearedBy(e, f, t), e.latched && f.Some?).1
  }

  lemma EntryEffect(g: Signal, t: nat, i: nat) returns (allowed: bool)
    requires WellFormed(g) && t < g.T && i < |g.entries|
    ensures var e, e', f := Run(g, t).es[i], Run(g, t + 1).es[i], Clearer(g, t, i);
            && allowed == (FiresNow(g, t, i, e, f) && (g.entries[i].binding.Some? ==> e.armed))
            && Traded(e, e', t, f, allowed)
            && e'.fired == (if FiresNow(g, t, i, e, f) then e.fired + [t] else e.fired)
  {
    EntryRuns(g, t, i);
    var e, f := Run(g, t).es[i], Clearer(g, t, i);
    allowed := FiresNow(g, t, i, e, f) && (g.entries[i].binding.Some? ==> e.armed);
  }

  lemma EntryArmEffect(g: Signal, t: nat, i: nat) returns (acts: bool)
    requires WellFormed(g) && t < g.T && i < |g.entries| && g.entries[i].binding.Some?
    ensures var e, e', b := Run(g, t).es[i], Run(g, t + 1).es[i], g.entries[i].binding.value;
            && (acts ==> e.armed)
            && e'.opens == (if acts then e.opens + [t] else e.opens)
            && (e'.armed, e'.countdown) == Recount(e.armed && !acts, if acts then Need(b) else e.countdown,
                                                   Some(b), ResetFires(g, b.reset, t))
  {
    EntryRuns(g, t, i);
    hide Run, Clearer, Scan, ClearedBy;
    var e, f := Run(g, t).es[i], Clearer(g, t, i);
    acts := FiresNow(g, t, i, e, f) && e.armed && (!e.latched || f.Some?);
  }

  lemma ChainEffect(g: Signal, t: nat, i: nat)
    requires WellFormed(g) && t < g.T && i < |g.entries| && g.entries[i].chain.Some?
    ensures var e, e', f, c := Run(g, t).es[i], Run(g, t + 1).es[i], Clearer(g, t, i), g.entries[i].chain.value;
            (e'.cand, FiresNow(g, t, i, e, f)) == A.Step(c, e.latched && f.Some?, e.cand, t)
  {
    EntryRuns(g, t, i);
  }

  // ----- The trade ledger --------------------------------------------------

  /** Trades of one entry alternate: each open is closed on a later bar, at or
      before the next open, and the last is unclosed exactly while latched. */
  ghost predicate LedgerOk(e: EntryState, t: nat) {
    && |e.opens| == |e.closes| + (if e.latched then 1 else 0)
    && (forall k :: 0 <= k < |e.opens| ==> e.opens[k] < t)
    && (forall k :: 0 <= k < |e.closes| ==> e.opens[k] < e.closes[k].bar < t)
    && (forall k :: 0 <= k < |e.opens| - 1 ==> e.closes[k].bar <= e.opens[k + 1])
  }

  /** Trade k is open over bar u. */
  predicate Spans(e: EntryState, k: nat, u: nat)
    requires k < |e.opens|
  {
    e.opens[k] <= u && (k < |e.closes| ==> u < e.closes[k].bar)
  }

  ghost predicate InTrade(e: EntryState, u: nat) {
    exists k :: 0 <= k < |e.opens| && Spans(e, k, u)
  }

  lemma CloseStep(e: EntryState, t: nat, x: nat)
    requires LedgerOk(e, t) && e.latched
    ensures LedgerOk(e.(latched := false, closes := e.closes + [Close(t, x)]), t + 1)
  {}

  lemma OpenStep(e: EntryState, t: nat)
    requires LedgerOk(e, t + 1) && !e.latched
    ensures LedgerOk(e.(latched := true, opens := e.opens + [t]), t + 1)
  {}

  lemma LedgerOf(a: EntryState, b: EntryState, t: nat)
    requires LedgerOk(a, t) && a.latched == b.latched && a.opens == b.opens && a.closes == b.closes
    ensures LedgerOk(b, t) && LedgerOk(b, t + 1)
  {}

  lemma LedgerStep(e: EntryState, e': EntryState, t: nat, f: Option<nat>, allowed: bool)
    requires LedgerOk(e, t) && Traded(e, e', t, f, allowed)
    ensures LedgerOk(e', t + 1)
  {
    hide LedgerOk;
    LedgerOf(e, e, t);
    var closed := if e.latched && f.Some? then e.(latched := false, closes := e.closes + [Close(t, f.value)]) else e;
    if e.latched && f.Some? {
      CloseStep(e, t, f.value);
    }
    var open := if allowed && !closed.latched then closed.(latched := true, opens := e.opens + [t]) else closed;
    if allowed && !closed.latched {
      OpenStep(closed, t);
    }
    LedgerOf(open, e', t + 1);
  }

  lemma InTradeNow(e: EntryState, t: nat)
    requires LedgerOk(e, t + 1)
    ensures InTrade(e, t) <==> e.latched
  {
    if e.latched {
      assert Spans(e, |e.opens| - 1, t);
    }
    if InTrade(e, t) {
      var k :| 0 <= k < |e.opens| && Spans(e, k, t);
    }
  }

  /** Trades do not change before bar t, and a new one starts there. */
  lemma SpansKept(e: EntryState, e': EntryState, t: nat, f: Option<nat>, allowed: bool, k: nat, u: nat)
    requires LedgerOk(e, t) && Traded(e, e', t, f, allowed) && u < t && k < |e'.opens|
    ensures |e.opens| <= |e'.opens|
    ensures Spans(e', k, u) <==> k < |e.opens| && Spans(e, k, u)
  {
    if k == |e.opens| {
      assert e'.opens[k] == t;
    } else {
      assert e'.opens[k] == e.opens[k];
      assert k < |e.closes| ==> e'.closes[k] == e.closes[k];
    }
  }

  lemma EarlierTrades(e: EntryState, e': EntryState, t: nat, f: Option<nat>, allowed: bool, u: nat)
    requires LedgerOk(e, t) && Traded(e, e', t, f, allowed) && u < t
    ensures InTrade(e', u) <==> InTrade(e, u)
  {
    assert |e.opens| <= |e'.opens|;
    hide LedgerOk, Traded, Spans;
    if InTrade(e, u) {
      var k :| 0 <= k < |e.opens| && Spans(e, k, u);
      SpansKept(e, e', t, f, allowed, k, u);
    }
    if InTrade(e', u) {
      var k :| 0 <= k < |e'.opens| && Spans(e', k, u);
      SpansKept(e, e', t, f, allowed, k, u);
    }
  }

  lemma RunStarts(g: Signal)
    requires WellFormed(g)
    ensures Run(g, 0) == Start(g)
  {}

  lemma LedgerStarts(g: Signal, i: nat)
    requires WellFormed(g) && i < |g.entries|
    ensures LedgerOk(Run(g, 0).es[i], 0)
  {
    RunStarts(g);
  }

  lemma {:induction false} Ledger(g: Signal, t: nat, i: nat)
    requires WellFormed(g) && t <= g.T && i < |g.entries|
    ensures LedgerOk(Run(g, t).es[i], t)
  {
    hide Run, Clearer, LedgerOk, Traded, FiresNow;
    if t == 0 {
      LedgerStarts(g, i);
    } else {
      Ledger(g, t - 1, i);
      var allowed := EntryEffect(g, t - 1, i);
      LedgerStep(Run(g, t - 1).es[i], Run(g, t).es[i], t - 1, Clearer(g, t - 1, i), allowed);
    }
  }

  /** Whether an entry was in a trade at bar u never changes after bar u. */
  lemma {:induction false} TradesStable(g: Signal, t: nat, i: nat, u: nat)
    requires WellFormed(g) && u < t <= g.T && i < |g.entries|
    ensures InTrade(Run(g, t).es[i], u) <==> Run(g, u + 1).es[i].latched
  {
    hide Run, Clearer, LedgerOk, InTrade, Traded, FiresNow, WellFormed;
    Ledger(g, t - 1, i);
    var allowed := EntryEffect(g, t - 1, i);
    if u == t - 1 {
      LedgerStep(Run(g, u).es[i], Run(g, t).es[i], u, Clearer(g, u, i), allowed);
      InTradeNow(Run(g, t).es[i], u);
    } else {
      EarlierTrades(Run(g, t - 1).es[i], Run(g, t).es[i], t - 1, Clearer(g, t - 1, i), allowed, u);
      TradesStable(g, t - 1, i, u);
    }
  }

  /** An entry is recorded active on exactly the bars its trades span. */
  lemma {:induction false} ActiveIffInTrade(g: Signal, t: nat, i: nat, u: nat)
    requires WellFormed(g) && u < t <= g.T && i < |g.entries|
    ensures u in Run(g, t).es[i].active <==> InTrade(Run(g, t).es[i], u)
  {
    ActiveIffLatched(g, t, i, u);
    TradesStable(g, t, i, u);
  }

  lemma {:induction false} ActiveIffLatched(g: Signal, t: nat, i: nat, u: nat)
    requires WellFormed(g) && t <= g.T && i < |g.entries|
    ensures u in Run(g, t).es[i].active <==> u < t && Run(g, u + 1).es[i].latched
  {
    hide Run, Clearer;
    if t == 0 {
      RunStarts(g);
    } else {
      ActiveIffLatched(g, t - 1, i, u);
      EntryRuns(g, t - 1, i);
    }
  }

  // ----- Positions are the open trades -------------------------------------

  datatype Trade = Trade(input: InputId, entry: nat, exit: Option<nat>, open: nat, close: Option<nat>, weight: real)

  predicate Covers(tr: Trade, u: nat) {
    tr.open <= u && (tr.close.Some? ==> u < tr.close.value)
  }

  /** Trade k of entry i: its k-th open paired with its k-th close, if any. */
  function TradeOf(g: Signal, i: nat, e: EntryState, k: nat): Trade
    requires i < |g.entries| && k < |e.opens|
  {
    Trade(g.entries[i].input, i,
          if k < |e.closes| then Some(e.closes[k].exit) else None,
          e.opens[k],
          if k < |e.closes| then Some(e.closes[k].bar) else None,
          SignedWeight(g.entries[i].weight))
  }

  function EntryTrades(g: Signal, i: nat, e: EntryState, n: nat): seq<Trade>
    requires i < |g.entries| && n <= |e.opens|
  {
    seq(n, k requires 0 <= k < n => TradeOf(g, i, e, k))
  }

  /** The trades of the first n entries, in declaration order. */
  function Trades(g: Signal, es: seq<EntryState>, n: nat): seq<Trade>
    requires n <= |es| == |g.entries|
  {
    if n == 0 then [] else Trades(g, es, n - 1) + EntryTrades(g, n - 1, es[n - 1], |es[n - 1].opens|)
  }

  /** The signed weight that the trades put on input rid at bar u. */
  function Exposure(ts: seq<Trade>, rid: InputId, u: nat): real {
    if ts == [] then 0.0
    else Exposure(ts[..|ts| - 1], rid, u) + Share(ts[|ts| - 1], rid, u)
  }

  function Share(tr: Trade, rid: InputId, u: nat): real {
    if tr.input == rid && Covers(tr, u) then tr.weight else 0.0
  }

  lemma {:induction false} ExposureConcat(a: seq<Trade>, b: seq<Trade>, rid: InputId, u: nat)
    ensures Exposure(a + b, rid, u) == Exposure(a, rid, u) + Exposure(b, rid, u)
  {
    if b == [] {
      assert a + b == a;
    } else {
      assert (a + b)[..|a + b| - 1] == a + b[..|b| - 1];
      ExposureConcat(a, b[..|b| - 1], rid, u);
    }
  }

  lemma ExposureRemove(b: seq<Trade>, q: nat, rid: InputId, u: nat)
    requires q < |b|
    ensures var rest := b[..q] + b[q + 1..];
            Exposure(b, rid, u) == Exposure(rest, rid, u) + Share(b[q], rid, u)
  {
    var x := [b[q]];
    assert b == b[..q] + (x + b[q + 1..]);
    ExposureConcat(b[..q], x + b[q + 1..], rid, u);
    ExposureConcat(x, b[q + 1..], rid, u);
    ExposureConcat(b[..q], b[q + 1..], rid, u);
    assert x[..0] == [];
  }

  lemma MultisetRemove<X>(b: seq<X>, q: nat)
    requires q < |b|
    ensures multiset(b[..q] + b[q + 1..]) == multiset(b) - multiset{b[q]}
  {
    assert b == b[..q] + ([b[q]] + b[q + 1..]);
  }

  /** Sorting or otherwise reordering the trades does not change what they hold. */
  lemma {:induction false} ExposureReordered(a: seq<Trade>, b: seq<Trade>, rid: InputId, u: nat)
    requires multiset(a) == multiset(b)
    ensures Exposure(a, rid, u) == Exposure(b, rid, u)
    decreases |a|
  {
    if a == [] {
      assert b == [] by { assert |multiset(b)| == 0; }
    } else {
      var n := |a| - 1;
      assert a[n] in multiset(b);
      var q :| 0 <= q < |b| && b[q] == a[n];
      assert a[..n] + a[n + 1..] == a[..n];
      MultisetRemove(a, n);
      MultisetRemove(b, q);
      ExposureRemove(b, q, rid, u);
      ExposureReordered(a[..n], b[..q] + b[q + 1..], rid, u);
    }
  }

  lemma {:induction false} TradesDisjoint(e: EntryState, t: nat, k: nat, l: nat)
    requires LedgerOk(e, t) && k < l < |e.opens|
    ensures k < |e.closes| && e.closes[k].bar <= e.opens[l]
  {
    if k + 1 < l {
      TradesDisjoint(e, t, k, l - 1);
      assert e.opens[l - 1] < e.closes[l - 1].bar <= e.opens[l - 1 + 1];
    }
  }

  predicate SpansBefore(e: EntryState, n: nat, u: nat)
    requires n <= |e.opens|
  {
    exists k :: 0 <= k < n && Spans(e, k, u)
  }

  lemma OneSpan(e: EntryState, t: nat, n: nat, u: nat)
    requires LedgerOk(e, t) && 0 < n <= |e.opens|
    ensures !(SpansBefore(e, n - 1, u) && Spans(e, n - 1, u))
    ensures SpansBefore(e, n, u) <==> SpansBefore(e, n - 1, u) || Spans(e, n - 1, u)
  {
    assert |e.opens| <= |e.closes| + 1;
    forall k | 0 <= k < n - 1 && Spans(e, k, u) ensures !Spans(e, n - 1, u) {
      TradesDisjoint(e, t, k, n - 1);
    }
    hide LedgerOk, Spans;
  }

  lemma {:induction false} EntryExposure(g: Signal, i: nat, e: EntryState, t: nat, n: nat, rid: InputId, u: nat)
    requires i < |g.entries| && LedgerOk(e, t) && n <= |e.opens|
    ensures Exposure(EntryTrades(g, i, e, n), rid, u) ==
            if g.entries[i].input == rid && SpansBefore(e, n, u) then SignedWeight(g.entries[i].weight) else 0.0
  {
    hide LedgerOk, SignedWeight;
    if n > 0 {
      EntryExposure(g, i, e, t, n - 1, rid, u);
      var ts := EntryTrades(g, i, e, n);
      assert ts[..n - 1] == EntryTrades(g, i, e, n - 1);
      OneSpan(e, t, n, u);
    }
  }

  /** The exposure of all trades is the sum over the entries in a trade. */
  lemma {:induction false} TradesExposure(g: Signal, t: nat, u: nat, rid: InputId, n: nat)
    requires WellFormed(g) && u < t <= g.T && n <= |g.entries|
    ensures Exposure(Trades(g, Run(g, t).es, n), rid, u) == NetPosition(g, Run(g, u + 1).es, rid, n)
  {
    hide Run, LedgerOk, Spans, SignedWeight, EntryTrades;
    if n > 0 {
      var es := Run(g, t).es;
      TradesExposure(g, t, u, rid, n - 1);
      ExposureConcat(Trades(g, es, n - 1), EntryTrades(g, n - 1, es[n - 1], |es[n - 1].opens|), rid, u);
      Ledger(g, t, n - 1);
      EntryExposure(g, n - 1, es[n - 1], t, |es[n - 1].opens|, rid, u);
      TradesStable(g, t, n - 1, u);
    }
  }

  lemma {:induction false} NetPositionLatches(g: Signal, a: seq<EntryState>, b: seq<EntryState>, rid: InputId, n: nat)
    requires n <= |a| == |b| == |g.entries|
    requires forall i :: 0 <= i < n ==> a[i].latched == b[i].latched
    ensures NetPosition(g, a, rid, n) == NetPosition(g, b, rid, n)
  {
    if n > 0 {
      NetPositionLatches(g, a, b, rid, n - 1);
    }
  }

  lemma EmittedPosition(g: Signal, t: nat, p: nat)
    requires WellFormed(g) && t < g.T && p < |g.referenced|
    ensures var s, s' := Run(g, t), Run(g, t + 1);
            s'.position[p] == s.position[p][t := NetPosition(g, s'.es, g.referenced[p], |s'.es|)]
  {
    var s := Rearmed(g, t, Entered(g, t, Run(g, t)));
    NetPositionLatches(g, s.es, Emitted(g, t, s).es, g.referenced[p], |s.es|);
  }

  /** At every bar the raw net position of an input is the sum of the signed
      weights of the derived trades, in any order, open over that bar. */
  lemma {:induction false} PositionIsOpenTrades(g: Signal, t: nat, u: nat, p: nat, ts: seq<Trade>)
    requires WellFormed(g) && u < t <= g.T && p < |g.referenced|
    requires multiset(ts) == multiset(Trades(g, Run(g, t).es, |g.entries|))
    ensures Run(g, t).position[p][u] == Exposure(ts, g.referenced[p], u)
  {
    hide Run;
    PositionKept(g, t, u, p);
    TradesExposure(g, t, u, g.referenced[p], |g.entries|);
    ExposureReordered(ts, Trades(g, Run(g, t).es, |g.entries|), g.referenced[p], u);
  }

  lemma {:induction false} PositionKept(g: Signal, t: nat, u: nat, p: nat)
    requires WellFormed(g) && u < t <= g.T && p < |g.referenced|
    ensures Run(g, t).position[p][u] == NetPosition(g, Run(g, u + 1).es, g.referenced[p], |g.entries|)
  {
    hide Run;
    EmittedPosition(g, t - 1, p);
    if u < t - 1 {
      PositionKept(g, t - 1, u, p);
    }
  }

  // ----- Reset arms --------------------------------------------------------

  /** On how many bars of lo..hi reset id fired. */
  function FireCount(g: Signal, id: ResetId, lo: nat, hi: nat): nat
    requires WellFormed(g) && hi <= g.T
  {
    if hi <= lo then 0
    else FireCount(g, id, lo, hi - 1) + if ResetFires(g, id, hi - 1) then 1 else 0
  }

  /** The arm of a bound block at the start of bar t, after effective fires on
      the bars `eff`: set exactly when it has not fired effectively yet or its
      reset has fired often enough since. */
  ghost predicate ArmOk(g: Signal, b: Binding, armed: bool, countdown: int, eff: seq<nat>, t: nat)
    requires WellFormed(g) && t <= g.T
  {
    && (forall k :: 0 <= k < |eff| ==> eff[k] < t)
    && (forall k :: 0 <= k < |eff| - 1 ==> FireCount(g, b.reset, eff[k], eff[k + 1]) >= Need(b))
    && (eff == [] ==> armed)
    && (eff != [] ==>
          var since := FireCount(g, b.reset, eff[|eff| - 1], t);
          (armed <==> since >= Need(b)) && (!armed ==> countdown == Need(b) - since))
  }

  lemma ArmStep(g: Signal, b: Binding, armed: bool, countdown: int, eff: seq<nat>, t: nat, acts: bool)
    requires WellFormed(g) && t < g.T && ArmOk(g, b, armed, countdown, eff, t) && (acts ==> armed)
    ensures var (a, c) := Recount(armed && !acts, if acts then Need(b) else countdown, Some(b),
                                  ResetFires(g, b.reset, t));
            ArmOk(g, b, a, c, if acts then eff + [t] else eff, t + 1)
  {
    if acts {
      assert FireCount(g, b.reset, t, t + 1) ==
             (if ResetFires(g, b.reset, t) then 1 else 0) + FireCount(g, b.reset, t, t);
    }
  }

  /** A bound entry is armed exactly when it never opened, or its reset fired at
      least max(1, count) times from its last open on. */
  lemma {:induction false} EntryArm(g: Signal, t: nat, i: nat)
    requires WellFormed(g) && t <= g.T && i < |g.entries| && g.entries[i].binding.Some?
    ensures var e := Run(g, t).es[i];
            ArmOk(g, g.entries[i].binding.value, e.armed, e.countdown, e.opens, t)
  {
    hide Run, Recount, FireCount, ResetFires;
    if t == 0 {
      RunStarts(g);
    } else {
      EntryArm(g, t - 1, i);
      var acts := EntryArmEffect(g, t - 1, i);
      var e := Run(g, t - 1).es[i];
      ArmStep(g, g.entries[i].binding.value, e.armed, e.countdown, e.opens, t - 1, acts);
    }
  }

  lemma ArmStarts(g: Signal, j: nat)
    requires WellFormed(g) && j < |g.exits| && g.exits[j].binding.Some?
    ensures var x := Run(g, 0).xs[j]; ArmOk(g, g.exits[j].binding.value, x.armed, x.countdown, x.effective, 0)
  {
    RunStarts(g);
  }

  lemma LoadedIsArmed(g: Signal, t: nat, x: ExitState, j: nat)
    requires WellFormed(g) && t < g.T && j < |g.exits| && g.exits[j].binding.Some?
    ensures Loaded(g, t, x, j) ==> x.armed
  {}

  /** Likewise for a bound exit and the bars on which it cleared an open entry. */
  lemma {:induction false} ExitArm(g: Signal, t: nat, j: nat)
    requires WellFormed(g) && t <= g.T && j < |g.exits| && g.exits[j].binding.Some?
    ensures var x := Run(g, t).xs[j];
            ArmOk(g, g.exits[j].binding.value, x.armed, x.countdown, x.effective, t)
  {
    hide Run, ArmOk, Loaded, ExitEffective, ResetFires, Recount;
    if t == 0 {
      ArmStarts(g, j);
    } else {
      ExitArm(g, t - 1, j);
      ExitRuns(g, t - 1, j);
      assert ExitEffective(g, t - 1, Run(g, t - 1), j) ==> Run(g, t - 1).xs[j].armed by {
        LoadedIsArmed(g, t - 1, Run(g, t - 1).xs[j], j);
      }
      var x := Run(g, t - 1).xs[j];
      ArmStep(g, g.exits[j].binding.value, x.armed, x.countdown, x.effective, t - 1,
              ExitEffective(g, t - 1, Run(g, t - 1), j));
    }
  }

  lemma {:induction false} NeverFires(g: Signal, id: ResetId, lo: nat, hi: nat)
    requires WellFormed(g) && hi <= g.T
    requires forall u :: 0 <= u < hi ==> !ResetFires(g, id, u)
    ensures FireCount(g, id, lo, hi) == 0
  {
    if lo < hi {
      NeverFires(g, id, lo, hi - 1);
    }
  }

  /** A block bound to a reset that never fires acts at most once. */
  lemma ActsAtMostOnce(g: Signal, t: nat, id: ResetId)
    requires WellFormed(g) && t <= g.T
    requires forall u :: 0 <= u < t ==> !ResetFires(g, id, u)
    ensures forall i :: 0 <= i < |g.entries| && BoundTo(g.entries[i].binding, id) ==> |Run(g, t).es[i].opens| <= 1
    ensures forall j :: 0 <= j < |g.exits| && BoundTo(g.exits[j].binding, id) ==> |Run(g, t).xs[j].effective| <= 1
  {
    hide Run;
    forall i | 0 <= i < |g.entries| && BoundTo(g.entries[i].binding, id) ensures |Run(g, t).es[i].opens| <= 1 {
      EntryArm(g, t, i);
      var o := Run(g, t).es[i].opens;
      if |o| > 1 { NeverFires(g, id, o[0], o[1]); }
    }
    forall j | 0 <= j < |g.exits| && BoundTo(g.exits[j].binding, id) ensures |Run(g, t).xs[j].effective| <= 1 {
      ExitArm(g, t, j);
      var o := Run(g, t).xs[j].effective;
      if |o| > 1 { NeverFires(g, id, o[0], o[1]); }
    }
  }

  // ----- Feedback of actual closes -----------------------------------------

  predicate ClosedAt(e: EntryState, u: nat) {
    exists k :: 0 <= k < |e.closes| && e.closes[k].bar == u
  }

  /** The reset array that has a mark exactly where the entry's own trades close. */
  function OwnCloses(e: EntryState, T: nat): seq<bool> {
    seq(T, u requires 0 <= u => ClosedAt(e, u))
  }

  /** Up to bar t, a chain entry's candidate and recorded fires are those of the
      detector run with reset array r, if r marks the entry's closes so far. */
  lemma {:induction false} FeedbackUpTo(g: Signal, t: nat, i: nat, r: seq<bool>)
    requires WellFormed(g) && t <= g.T && i < |g.entries| && g.entries[i].chain.Some? && |r| == g.T
    requires forall u :: 0 <= u < t ==> (r[u] <==> ClosedAt(Run(g, t).es[i], u))
    ensures var e, c := Run(g, t).es[i], g.entries[i].chain.value;
            && e.cand == A.At(c, r, t)
            && forall u: nat :: u in e.fired <==> u < t && A.Fires(c, r, u)
  {
    hide Run, Clearer, LedgerOk, ClosedAt, Traded, FiresNow, A.Step;
    if t == 0 {
      RunStarts(g);
    } else {
      var e, e', f := Run(g, t - 1).es[i], Run(g, t).es[i], Clearer(g, t - 1, i);
      Ledger(g, t - 1, i);
      ChainEffect(g, t - 1, i);
      var allowed := EntryEffect(g, t - 1, i);
      ClosesStep(e, e', t - 1, f, allowed);
      FeedbackUpTo(g, t - 1, i, r);
    }
  }

  lemma ClosesStep(e: EntryState, e': EntryState, t: nat, f: Option<nat>, allowed: bool)
    requires LedgerOk(e, t) && Traded(e, e', t, f, allowed)
    ensures ClosedAt(e', t) <==> e.latched && f.Some?
    ensures forall u :: 0 <= u < t ==> (ClosedAt(e', u) <==> ClosedAt(e, u))
  {
    if e.latched && f.Some? {
      assert e'.closes[|e.closes|].bar == t;
      forall u | 0 <= u < t && ClosedAt(e, u) ensures ClosedAt(e', u) {
        var k :| 0 <= k < |e.closes| && e.closes[k].bar == u;
        assert e'.closes[k].bar == u;
      }
    }
  }

  /** Over a whole run the fires of an in-loop chain are those of the detector
      reset on exactly the bars where that entry's own trades closed, although
      those closes depend on its earlier fires. */
  lemma FeedbackRefinement(g: Signal, i: nat)
    requires WellFormed(g) && i < |g.entries| && g.entries[i].chain.Some?
    ensures var e, c := Run(g, g.T).es[i], g.entries[i].chain.value;
            forall u: nat :: u in e.fired <==> u < g.T && A.Fires(c, OwnCloses(e, g.T), u)
  {
    FeedbackUpTo(g, g.T, i, OwnCloses(Run(g, g.T).es[i], g.T));
  }
}
