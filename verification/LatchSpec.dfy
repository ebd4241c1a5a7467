/** What one bar of the latch protocol of a signal does, block by block, and what
    a whole run keeps. Blocks are indexed by position; the dictionaries that the
    engine keys by (distinct) block id are sequences here. */
module LatchSpec {
  import opened Wrappers
  import A = Automaton

  // ----- The signal and its precomputed condition arrays -------------------

  type Name = nat
  type InputId = nat
  type ResetId = nat

  /** Re-arming needs `count` fires of reset block `reset`. */
  datatype Binding = Binding(reset: ResetId, count: int)

  /** `chain` is set for a reset_on_actual_exit THEN-chain entry that some exit
      targets: its fires come from the automaton inside the loop, not `truth`. */
  datatype Entry = Entry(name: Option<Name>, input: InputId, weight: real, binding: Option<Binding>,
                         truth: seq<bool>, chain: Option<A.Chain>)
  datatype Exit = Exit(targets: seq<Name>, binding: Option<Binding>, truth: seq<bool>)
  datatype Reset = Reset(id: ResetId, truth: seq<bool>, nan: seq<bool>)
  datatype Signal = Signal(entries: seq<Entry>, exits: seq<Exit>, resets: seq<Reset>,
                           referenced: seq<InputId>, T: nat)

  predicate WellFormed(g: Signal) {
    && (forall i :: 0 <= i < |g.entries| ==> |g.entries[i].truth| == g.T)
    && (forall i :: 0 <= i < |g.entries| && g.entries[i].chain.Some? ==>
          A.IsChain(g.entries[i].chain.value) && g.entries[i].chain.value.T == g.T)
    && (forall i, k :: 0 <= i < k < |g.entries| && g.entries[i].name.Some? ==>
          g.entries[i].name != g.entries[k].name)
    && (forall j :: 0 <= j < |g.exits| ==> |g.exits[j].truth| == g.T)
    && (forall r :: 0 <= r < |g.resets| ==> |g.resets[r].truth| == |g.resets[r].nan| == g.T)
    && (forall r, q :: 0 <= r < q < |g.resets| ==> g.resets[r].id != g.resets[q].id)
    && (forall p, q :: 0 <= p < q < |g.referenced| ==> g.referenced[p] != g.referenced[q])
    && (forall i :: 0 <= i < |g.entries| ==> g.entries[i].input in g.referenced)
  }

  /** The position of the entry a target name resolves to. */
  function Resolve(entries: seq<Entry>, name: Name): (r: Option<nat>)
    ensures r.Some? ==> r.value < |entries| && entries[r.value].name == Some(name)
    ensures r.None? ==> forall i :: 0 <= i < |entries| ==> entries[i].name != Some(name)
  {
    if entries == [] then None
    else if entries[|entries| - 1].name == Some(name) then Some(|entries| - 1)
    else Resolve(entries[..|entries| - 1], name)
  }

  predicate ResetFires(g: Signal, id: ResetId, t: nat)
    requires WellFormed(g) && t < g.T
  {
    exists r :: 0 <= r < |g.resets| && g.resets[r].id == id && g.resets[r].truth[t] && !g.resets[r].nan[t]
  }

  /** The clamped number of fires a binding needs. */
  function Need(b: Binding): (n: int)
    ensures n >= 1 && n >= b.count && (n == 1 || n == b.count)
  {
    MaxInt(1, b.count)
  }

  function SignedWeight(w: real): real {
    (if w > 0.0 then 1.0 else -1.0) * AbsReal(w) / 100.0
  }

  // ----- State -------------------------------------------------------------

  datatype Close = Close(bar: nat, exit: nat)

  /** `armed` and `countdown` matter for a bound block only. */
  datatype EntryState = EntryState(latched: bool, armed: bool, countdown: int, opens: seq<nat>,
                                   closes: seq<Close>, fired: seq<nat>, active: seq<nat>, cand: A.Candidate)
  datatype ExitState = ExitState(armed: bool, countdown: int, effective: seq<nat>)
  datatype State = State(es: seq<EntryState>, xs: seq<ExitState>, armings: seq<seq<nat>>,
                         position: seq<seq<real>>)

  predicate Fits(g: Signal, s: State) {
    && |s.es| == |g.entries| && |s.xs| == |g.exits| && |s.armings| == |g.resets|
    && |s.position| == |g.referenced|
    && (forall p :: 0 <= p < |s.position| ==> |s.position[p]| == g.T)
  }

  function Start(g: Signal): State {
    State(seq(|g.entries|, _ => EntryState(false, true, 0, [], [], [], [], A.Idle)),
          seq(|g.exits|, _ => ExitState(true, 0, [])),
          seq(|g.resets|, _ => []),
          seq(|g.referenced|, _ => seq(g.T, _ => 0.0)))
  }

  // ----- Clear pass --------------------------------------------------------

  /** One of the first k targets of exit j resolves to entry i. */
  predicate Hits(g: Signal, j: nat, k: nat, i: nat)
    requires j < |g.exits| && k <= |g.exits[j].targets|
  {
    exists q :: 0 <= q < k && Resolve(g.entries, g.exits[j].targets[q]) == Some(i)
  }

  /** Exit j may act on bar t. */
  predicate Loaded(g: Signal, t: nat, x: ExitState, j: nat)
    requires WellFormed(g) && t < g.T && j < |g.exits|
  {
    g.exits[j].truth[t] && (g.exits[j].binding.Some? ==> x.armed)
  }

  /** The first of the first n exits that clears entry i on bar t, if it is open. */
  function FirstExit(g: Signal, t: nat, xs: seq<ExitState>, i: nat, n: nat): (f: Option<nat>)
    requires WellFormed(g) && t < g.T && n <= |g.exits| == |xs|
    ensures f.Some? ==> f.value < n && Loaded(g, t, xs[f.value], f.value)
                        && Hits(g, f.value, |g.exits[f.value].targets|, i)
  {
    if n == 0 then None
    else
      var f := FirstExit(g, t, xs, i, n - 1);
      if f.Some? then f
      else if Loaded(g, t, xs[n - 1], n - 1) && Hits(g, n - 1, |g.exits[n - 1].targets|, i) then Some(n - 1)
      else None
  }

  function ClearedBy(e: EntryState, f: Option<nat>, t: nat): EntryState {
    if e.latched && f.Some? then e.(latched := false, closes := e.closes + [Close(t, f.value)]) else e
  }

  /** An exit on bar t actually closed entry i's open position. */
  predicate ClosedNow(g: Signal, t: nat, s: State, i: nat)
    requires WellFormed(g) && Fits(g, s) && t < g.T && i < |s.es|
  {
    s.es[i].latched && FirstExit(g, t, s.xs, i, |g.exits|).Some?
  }

  predicate ExitEffective(g: Signal, t: nat, s: State, j: nat)
    requires WellFormed(g) && Fits(g, s) && t < g.T && j < |s.xs|
  {
    exists i :: 0 <= i < |s.es| && s.es[i].latched && FirstExit(g, t, s.xs, i, |g.exits|) == Some(j)
  }

  function Spent(x: ExitState, b: Option<Binding>, t: nat): ExitState {
    ExitState(x.armed && b.None?, if b.Some? then Need(b.value) else x.countdown, x.effective + [t])
  }

  function Cleared(g: Signal, t: nat, s: State): (s': State)
    requires WellFormed(g) && Fits(g, s) && t < g.T
    ensures Fits(g, s')
  {
    s.(es := seq(|s.es|, i requires 0 <= i < |s.es| =>
               ClearedBy(s.es[i], FirstExit(g, t, s.xs, i, |g.exits|), t)),
       xs := seq(|s.xs|, j requires 0 <= j < |s.xs| =>
               if ExitEffective(g, t, s, j) then Spent(s.xs[j], g.exits[j].binding, t) else s.xs[j]))
  }

  // ----- Automaton and entry pass ------------------------------------------

  /** The in-loop automaton step of entry i, aborted by a close of its own trade,
      or the recording of its precomputed fire. */
  function Scan(g: Signal, t: nat, i: nat, e: EntryState, closed: bool): (r: (EntryState, bool))
    requires WellFormed(g) && t < g.T && i < |g.entries|
  {
    var fire := if g.entries[i].chain.Some? then A.Step(g.entries[i].chain.value, closed, e.cand, t).1
                else g.entries[i].truth[t];
    var cand := if g.entries[i].chain.Some? then A.Step(g.entries[i].chain.value, closed, e.cand, t).0
                else e.cand;
    (e.(cand := cand, fired := if fire then e.fired + [t] else e.fired), fire)
  }

  /** A fire opens a flat entry whose arm allows it. */
  function Open(g: Signal, t: nat, i: nat, e: EntryState, fire: bool): EntryState
    requires WellFormed(g) && t < g.T && i < |g.entries|
  {
    var b := g.entries[i].binding;
    if !fire || (b.Some? && !e.armed) || e.latched then e
    else e.(latched := true, opens := e.opens + [t], armed := e.armed && b.None?,
            countdown := if b.Some? then Need(b.value) else e.countdown)
  }

  // ----- Reset pass --------------------------------------------------------

  /** What the reset fires of bar t leave of a bound block's arm. */
  function Recount(armed: bool, countdown: int, b: Option<Binding>, hit: bool): (bool, int) {
    if b.None? || armed || !hit then (armed, countdown) else (countdown - 1 <= 0, countdown - 1)
  }

  predicate BoundTo(b: Option<Binding>, id: ResetId) {
    b.Some? && b.value.reset == id
  }

  /** A fire of reset id would restore this arm. */
  predicate Restores(armed: bool, countdown: int, b: Option<Binding>, id: ResetId) {
    BoundTo(b, id) && !armed && countdown - 1 <= 0
  }

  predicate SomeRestored(g: Signal, s: State, id: ResetId)
    requires |s.es| == |g.entries| && |s.xs| == |g.exits|
  {
    || (exists i :: 0 <= i < |s.es| && Restores(s.es[i].armed, s.es[i].countdown, g.entries[i].binding, id))
    || (exists j :: 0 <= j < |s.xs| && Restores(s.xs[j].armed, s.xs[j].countdown, g.exits[j].binding, id))
  }

  predicate HitBy(g: Signal, b: Option<Binding>, t: nat)
    requires WellFormed(g) && t < g.T
  {
    b.Some? && ResetFires(g, b.value.reset, t)
  }

  function RearmEntry(g: Signal, t: nat, i: nat, e: EntryState): EntryState
    requires WellFormed(g) && t < g.T && i < |g.entries|
  {
    var (a, c) := Recount(e.armed, e.countdown, g.entries[i].binding, HitBy(g, g.entries[i].binding, t));
    e.(armed := a, countdown := c)
  }

  function RearmExit(g: Signal, t: nat, j: nat, x: ExitState): ExitState
    requires WellFormed(g) && t < g.T && j < |g.exits|
  {
    var (a, c) := Recount(x.armed, x.countdown, g.exits[j].binding, HitBy(g, g.exits[j].binding, t));
    x.(armed := a, countdown := c)
  }

  function Rearmed(g: Signal, t: nat, s: State): (s': State)
    requires WellFormed(g) && Fits(g, s) && t < g.T
    ensures Fits(g, s')
  {
    s.(es := seq(|s.es|, i requires 0 <= i < |s.es| => RearmEntry(g, t, i, s.es[i])),
       xs := seq(|s.xs|, j requires 0 <= j < |s.xs| => RearmExit(g, t, j, s.xs[j])),
       armings := seq(|s.armings|, r requires 0 <= r < |s.armings| =>
                    if g.resets[r].truth[t] && !g.resets[r].nan[t] && SomeRestored(g, s, g.resets[r].id)
                    then s.armings[r] + [t] else s.armings[r]))
  }

  // ----- Emission and the whole bar ----------------------------------------

  /** The net position of one input: the signed weights of its open entries. */
  function NetPosition(g: Signal, es: seq<EntryState>, rid: InputId, n: nat): real
    requires n <= |es| == |g.entries|
  {
    if n == 0 then 0.0
    else NetPosition(g, es, rid, n - 1) +
         if es[n - 1].latched && g.entries[n - 1].input == rid then SignedWeight(g.entries[n - 1].weight) else 0.0
  }

  function Emitted(g: Signal, t: nat, s: State): (s': State)
    requires WellFormed(g) && Fits(g, s) && t < g.T
    ensures Fits(g, s')
  {
    s.(es := seq(|s.es|, i requires 0 <= i < |s.es| =>
               if s.es[i].latched then s.es[i].(active := s.es[i].active + [t]) else s.es[i]),
       position := seq(|s.position|, p requires 0 <= p < |s.position| =>
                     s.position[p][t := NetPosition(g, s.es, g.referenced[p], |s.es|)]))
  }

  function Scanned(g: Signal, t: nat, s: State, i: nat): (EntryState, bool)
    requires WellFormed(g) && Fits(g, s) && t < g.T && i < |s.es|
  {
    Scan(g, t, i, Cleared(g, t, s).es[i], ClosedNow(g, t, s, i))
  }

  function Entered(g: Signal, t: nat, s: State): (s': State)
    requires WellFormed(g) && Fits(g, s) && t < g.T
    ensures Fits(g, s')
  {
    Cleared(g, t, s).(es := seq(|s.es|, i requires 0 <= i < |s.es| =>
      Open(g, t, i, Scanned(g, t, s, i).0, Scanned(g, t, s, i).1)))
  }

  /** One bar: exits clear, chains advance, entries open, resets re-arm, and the
      positions are emitted. */
  function Bar(g: Signal, t: nat, s: State): (s': State)
    requires WellFormed(g) && Fits(g, s) && t < g.T
    ensures Fits(g, s')
  {
    Emitted(g, t, Rearmed(g, t, Entered(g, t, s)))
  }

  /** The state at the start of bar t. */
  function Run(g: Signal, t: nat): (s: State)
    requires WellFormed(g) && t <= g.T
    ensures Fits(g, s)
  {
    if t == 0 then Start(g) else Bar(g, t - 1, Run(g, t - 1))
  }
}
