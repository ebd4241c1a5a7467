/** What one bar of a run does to each block, read off the conditions, the targets,
    and the latches and arms that the bar starts with. */
module LatchBars {
  import opened Wrappers
  import A = Automaton
  import opened LatchSpec
  import opened LatchRuns

  // ----- Exits -------------------------------------------------------------

  /** On bar t exit j is true, is unbound or armed, and lists entry i's name. */
  predicate Acts(g: Signal, t: nat, xs: seq<ExitState>, j: nat, i: nat)
    requires WellFormed(g) && t < g.T && j < |g.exits| == |xs| && i < |g.entries|
  {
    && g.exits[j].truth[t] && (g.exits[j].binding.None? || xs[j].armed)
    && g.entries[i].name.Some? && g.entries[i].name.value in g.exits[j].targets
  }

  /** Exit j acts on entry i on bar t, and no earlier exit does. */
  predicate ActsFirst(g: Signal, t: nat, xs: seq<ExitState>, j: nat, i: nat)
    requires WellFormed(g) && t < g.T && j < |g.exits| == |xs| && i < |g.entries|
  {
    Acts(g, t, xs, j, i) && forall k :: 0 <= k < j ==> !Acts(g, t, xs, k, i)
  }

  predicate Shut(g: Signal, t: nat, xs: seq<ExitState>, i: nat)
    requires WellFormed(g) && t < g.T && |g.exits| == |xs| && i < |g.entries|
  {
    exists j :: 0 <= j < |g.exits| && Acts(g, t, xs, j, i)
  }

  /** Entry i, open before the exits of bar t, is closed by the first that acts on
      it; nothing else closes an entry. */
  predicate ClosedRight(g: Signal, t: nat, xs: seq<ExitState>, i: nat, e: EntryState, e': EntryState)
    requires WellFormed(g) && t < g.T && |g.exits| == |xs| && i < |g.entries|
  {
    && (forall j :: 0 <= j < |g.exits| ==>
          (e'.closes == e.closes + [Close(t, j)] <==> e.latched && ActsFirst(g, t, xs, j, i)))
    && (e'.closes == e.closes <==> !(e.latched && Shut(g, t, xs, i)))
  }

  lemma ResolveIff(g: Signal, name: Name, i: nat)
    requires WellFormed(g) && i < |g.entries|
    ensures Resolve(g.entries, name) == Some(i) <==> g.entries[i].name == Some(name)
  {}

  lemma ActsIff(g: Signal, t: nat, xs: seq<ExitState>, j: nat, i: nat)
    requires WellFormed(g) && t < g.T && j < |g.exits| == |xs| && i < |g.entries|
    ensures Acts(g, t, xs, j, i) <==> Loaded(g, t, xs[j], j) && Hits(g, j, |g.exits[j].targets|, i)
  {
    hide WellFormed, Resolve;
    var ts := g.exits[j].targets;
    forall q | 0 <= q < |ts| ensures Resolve(g.entries, ts[q]) == Some(i) <==> g.entries[i].name == Some(ts[q]) {
      ResolveIff(g, ts[q], i);
    }
  }

  lemma {:induction false} FirstOf(g: Signal, t: nat, xs: seq<ExitState>, i: nat, n: nat)
    requires WellFormed(g) && t < g.T && i < |g.entries| && n <= |g.exits| == |xs|
    ensures var f := FirstExit(g, t, xs, i, n);
            if f.Some? then ActsFirst(g, t, xs, f.value, i) else forall k :: 0 <= k < n ==> !Acts(g, t, xs, k, i)
  {
    hide Acts, Loaded, Hits, WellFormed;
    if n > 0 {
      FirstOf(g, t, xs, i, n - 1);
      ActsIff(g, t, xs, n - 1, i);
    }
  }

  lemma FirstActs(g: Signal, t: nat, xs: seq<ExitState>, i: nat)
    requires WellFormed(g) && t < g.T && i < |g.entries| && |g.exits| == |xs|
    ensures var f := FirstExit(g, t, xs, i, |g.exits|);
            && (f.Some? <==> Shut(g, t, xs, i))
            && (forall j :: 0 <= j < |g.exits| ==> (f == Some(j) <==> ActsFirst(g, t, xs, j, i)))
  {
    hide Acts, WellFormed;
    FirstOf(g, t, xs, i, |g.exits|);
  }

  /** The clear pass closes the right entries. */
  lemma ClearedRight(g: Signal, t: nat, s: State, i: nat)
    requires WellFormed(g) && Fits(g, s) && t < g.T && i < |g.entries|
    ensures ClosedRight(g, t, s.xs, i, s.es[i], Cleared(g, t, s).es[i])
    ensures Cleared(g, t, s).es[i].latched <==> s.es[i].latched && !Shut(g, t, s.xs, i)
  {
    hide WellFormed, Acts, ActsFirst, Shut, FirstExit;
    FirstActs(g, t, s.xs, i);
    RightClose(g, t, s.xs, i, s.es[i], Cleared(g, t, s).es[i], FirstExit(g, t, s.xs, i, |g.exits|));
  }

  lemma RightClose(g: Signal, t: nat, xs: seq<ExitState>, i: nat, e: EntryState, e': EntryState, f: Option<nat>)
    requires WellFormed(g) && t < g.T && i < |g.entries| && |g.exits| == |xs|
    requires f == FirstExit(g, t, xs, i, |g.exits|)
    requires e'.closes == if e.latched && f.Some? then e.closes + [Close(t, f.value)] else e.closes
    ensures ClosedRight(g, t, xs, i, e, e')
  {
    hide WellFormed, Acts, ActsFirst, Shut, FirstExit;
    FirstActs(g, t, xs, i);
    forall j | 0 <= j < |g.exits|
      ensures e'.closes == e.closes + [Close(t, j)] <==> e.latched && ActsFirst(g, t, xs, j, i)
    {
      if e'.closes == e.closes + [Close(t, j)] {
        assert e'.closes[|e.closes|] == Close(t, j);
      }
    }
  }

  /** Over a run the same holds of a whole bar. */
  lemma ClosesIff(g: Signal, t: nat, i: nat)
    requires WellFormed(g) && t < g.T && i < |g.entries|
    ensures ClosedRight(g, t, Run(g, t).xs, i, Run(g, t).es[i], Run(g, t + 1).es[i])
  {
    hide Run, ClosedRight, Clearer, FiresNow;
    var allowed := EntryEffect(g, t, i);
    ClearerFirst(g, t, i);
    RightClose(g, t, Run(g, t).xs, i, Run(g, t).es[i], Run(g, t + 1).es[i], Clearer(g, t, i));
  }

  lemma ClearerFirst(g: Signal, t: nat, i: nat)
    requires WellFormed(g) && t < g.T && i < |g.entries|
    ensures Clearer(g, t, i) == FirstExit(g, t, Run(g, t).xs, i, |g.exits|)
    ensures Clearer(g, t, i).Some? <==> Shut(g, t, Run(g, t).xs, i)
  {
    hide Run, WellFormed;
    FirstActs(g, t, Run(g, t).xs, i);
  }

  /** Exit j is the first to act on an entry that is open. */
  predicate ExitActs(g: Signal, t: nat, j: nat)
    requires WellFormed(g) && t < g.T && j < |g.exits|
  {
    exists i :: 0 <= i < |g.entries| && Run(g, t).es[i].latched && ActsFirst(g, t, Run(g, t).xs, j, i)
  }

  /** An exit is effective on exactly the bars on which it closes an entry. */
  lemma EffectiveIff(g: Signal, t: nat, j: nat)
    requires WellFormed(g) && t < g.T && j < |g.exits|
    ensures var x, x' := Run(g, t).xs[j], Run(g, t + 1).xs[j];
            x'.effective == if ExitActs(g, t, j) then x.effective + [t] else x.effective
  {
    hide Run, Acts, ActsFirst, FirstExit, WellFormed;
    ExitRuns(g, t, j);
    forall i | 0 <= i < |g.entries|
      ensures FirstExit(g, t, Run(g, t).xs, i, |g.exits|) == Some(j) <==> ActsFirst(g, t, Run(g, t).xs, j, i)
    {
      FirstActs(g, t, Run(g, t).xs, i);
    }
  }

  // ----- Entries -----------------------------------------------------------

  /** On bar t entry i's condition holds, or its chain completes where a close of
      its own trade on this bar resets it. */
  predicate EntryFires(g: Signal, t: nat, i: nat)
    requires WellFormed(g) && t < g.T && i < |g.entries|
  {
    var e := Run(g, t).es[i];
    if g.entries[i].chain.None? then g.entries[i].truth[t]
    else A.Step(g.entries[i].chain.value, e.latched && Shut(g, t, Run(g, t).xs, i), e.cand, t).1
  }

  /** On bar t entry i fires, is unbound or armed, and is flat once the exits have acted. */
  predicate Enters(g: Signal, t: nat, i: nat)
    requires WellFormed(g) && t < g.T && i < |g.entries|
  {
    && EntryFires(g, t, i) && (g.entries[i].binding.None? || Run(g, t).es[i].armed)
    && (!Run(g, t).es[i].latched || Shut(g, t, Run(g, t).xs, i))
  }

  lemma FiresNowIff(g: Signal, t: nat, i: nat)
    requires WellFormed(g) && t < g.T && i < |g.entries|
    ensures FiresNow(g, t, i, Run(g, t).es[i], Clearer(g, t, i)) <==> EntryFires(g, t, i)
  {
    hide Run, Shut, Clearer, A.Step;
    ClearerFirst(g, t, i);
  }

  /** After a bar an entry is open exactly when it entered on it, or was open and
      no exit acted; it is opened and recorded as fired on exactly those bars. */
  lemma LatchedIff(g: Signal, t: nat, i: nat)
    requires WellFormed(g) && t < g.T && i < |g.entries|
    ensures var e, e' := Run(g, t).es[i], Run(g, t + 1).es[i];
            && (e'.latched <==> Enters(g, t, i) || (e.latched && !Shut(g, t, Run(g, t).xs, i)))
            && e'.opens == (if Enters(g, t, i) then e.opens + [t] else e.opens)
            && e'.fired == (if EntryFires(g, t, i) then e.fired + [t] else e.fired)
  {
    hide Run, Shut, Clearer, FiresNow, EntryFires;
    ClearerFirst(g, t, i);
    FiresNowIff(g, t, i);
    var allowed := EntryEffect(g, t, i);
  }

  // ----- Resets ------------------------------------------------------------

  /** A block bound to id that starts bar t disarmed, or that this bar disarms by
      letting it act, ends it armed. */
  predicate ArmsBlock(g: Signal, t: nat, id: ResetId)
    requires WellFormed(g) && t < g.T
  {
    || (exists i :: 0 <= i < |g.entries| && BoundTo(g.entries[i].binding, id)
                    && (!Run(g, t).es[i].armed || Enters(g, t, i)) && Run(g, t + 1).es[i].armed)
    || (exists j :: 0 <= j < |g.exits| && BoundTo(g.exits[j].binding, id)
                    && (!Run(g, t).xs[j].armed || ExitActs(g, t, j)) && Run(g, t + 1).xs[j].armed)
  }

  /** The blocks as the reset pass of bar t finds them. */
  function BeforeResets(g: Signal, t: nat): (s: State)
    requires WellFormed(g) && t < g.T
    ensures Fits(g, s)
  {
    Entered(g, t, Run(g, t))
  }

  lemma RearmedAt(g: Signal, t: nat)
    requires WellFormed(g) && t < g.T
    ensures var s, s' := BeforeResets(g, t), Run(g, t + 1);
            && (forall i :: 0 <= i < |s.es| ==> s'.es[i].armed == RearmEntry(g, t, i, s.es[i]).armed)
            && (forall j :: 0 <= j < |s.xs| ==> s'.xs[j].armed == RearmExit(g, t, j, s.xs[j]).armed)
            && (forall r :: 0 <= r < |s.armings| ==> 
                  var fires := g.resets[r].truth[t] && !g.resets[r].nan[t];
                  s'.armings[r] == if fires && SomeRestored(g, s, g.resets[r].id) then Run(g, t).armings[r] + [t]
                                   else Run(g, t).armings[r])
  {
    hide SomeRestored, Recount;
  }

  lemma EntryBefore(g: Signal, t: nat, i: nat)
    requires WellFormed(g) && t < g.T && i < |g.entries| && g.entries[i].binding.Some?
    ensures BeforeResets(g, t).es[i].armed == (Run(g, t).es[i].armed && !Enters(g, t, i))
  {
    hide Run, Shut, EntryFires, FirstExit, A.Step;
    ClearerFirst(g, t, i);
    FiresNowIff(g, t, i);
  }

  lemma ExitBefore(g: Signal, t: nat, j: nat)
    requires WellFormed(g) && t < g.T && j < |g.exits| && g.exits[j].binding.Some?
    ensures BeforeResets(g, t).xs[j].armed == (Run(g, t).xs[j].armed && !ExitActs(g, t, j))
  {
    hide Run, Acts, ActsFirst, FirstExit, WellFormed;
    forall i | 0 <= i < |g.entries|
      ensures FirstExit(g, t, Run(g, t).xs, i, |g.exits|) == Some(j) <==> ActsFirst(g, t, Run(g, t).xs, j, i)
    {
      FirstActs(g, t, Run(g, t).xs, i);
    }
  }

  lemma FiresHere(g: Signal, t: nat, r: nat)
    requires WellFormed(g) && t < g.T && r < |g.resets|
    ensures ResetFires(g, g.resets[r].id, t) <==> g.resets[r].truth[t] && !g.resets[r].nan[t]
  {}

  /** A firing reset restores exactly the blocks that it arms. */
  lemma RestoresArms(g: Signal, t: nat, id: ResetId)
    requires WellFormed(g) && t < g.T && ResetFires(g, id, t)
    ensures SomeRestored(g, BeforeResets(g, t), id) <==> ArmsBlock(g, t, id)
  {
    hide Run, BeforeResets, Enters, ExitActs, WellFormed, ResetFires;
    RearmedAt(g, t);
    var s := BeforeResets(g, t);
    forall i | 0 <= i < |g.entries| && BoundTo(g.entries[i].binding, id)
      ensures Restores(s.es[i].armed, s.es[i].countdown, g.entries[i].binding, id) <==>
              (!Run(g, t).es[i].armed || Enters(g, t, i)) && Run(g, t + 1).es[i].armed
    {
      EntryBefore(g, t, i);
    }
    forall j | 0 <= j < |g.exits| && BoundTo(g.exits[j].binding, id)
      ensures Restores(s.xs[j].armed, s.xs[j].countdown, g.exits[j].binding, id) <==>
              (!Run(g, t).xs[j].armed || ExitActs(g, t, j)) && Run(g, t + 1).xs[j].armed
    {
      ExitBefore(g, t, j);
    }
  }

  /** A reset is recorded on exactly the bars on which it fires and arms a block. */
  lemma ArmingsIff(g: Signal, t: nat, r: nat)
    requires WellFormed(g) && t < g.T && r < |g.resets|
    ensures var id, a := g.resets[r].id, Run(g, t).armings[r];
            var fires := g.resets[r].truth[t] && !g.resets[r].nan[t];
            Run(g, t + 1).armings[r] == if fires && ArmsBlock(g, t, id) then a + [t] else a
  {
    hide Run, BeforeResets, ArmsBlock, SomeRestored, ResetFires;
    RearmedAt(g, t);
    FiresHere(g, t, r);
    if ResetFires(g, g.resets[r].id, t) {
      RestoresArms(g, t, g.resets[r].id);
    }
  }

  // ----- Positions ---------------------------------------------------------

  /** The weights, as configured, of the open entries on one input. */
  function OpenWeight(g: Signal, es: seq<EntryState>, rid: InputId, n: nat): real
    requires n <= |es| == |g.entries|
  {
    if n == 0 then 0.0
    else OpenWeight(g, es, rid, n - 1) +
         if es[n - 1].latched && g.entries[n - 1].input == rid then g.entries[n - 1].weight else 0.0
  }

  lemma {:induction false} NetIsWeight(g: Signal, es: seq<EntryState>, rid: InputId, n: nat)
    requires n <= |es| == |g.entries|
    ensures 100.0 * NetPosition(g, es, rid, n) == OpenWeight(g, es, rid, n)
  {
    if n > 0 {
      NetIsWeight(g, es, rid, n - 1);
    }
  }

  /** The position of an input at a bar, in percent, is the sum of the configured
      weights, signs included, of the entries open at the end of that bar. */
  lemma PositionIsWeight(g: Signal, t: nat, u: nat, p: nat)
    requires WellFormed(g) && u < t <= g.T && p < |g.referenced|
    ensures 100.0 * Run(g, t).position[p][u] == OpenWeight(g, Run(g, u + 1).es, g.referenced[p], |g.entries|)
  {
    hide Run;
    PositionKept(g, t, u, p);
    NetIsWeight(g, Run(g, u + 1).es, g.referenced[p], |g.entries|);
  }
}
