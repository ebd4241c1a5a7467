/** The per-bar loop over a signal's blocks, updating the latches, arms, automata,
    trade lists and positions in place. Each pass is proved to do what LatchSpec
    says of one bar, and the whole loop to reach LatchSpec.Run. */
module LatchLoop {
  import opened Wrappers
  import A = Automaton
  import opened LatchSpec
  import opened LatchRuns
  import opened LatchBars

  /** The exit that clears an entry does not change once found. */
  lemma {:induction false} FirstExitStable(g: Signal, t: nat, xs: seq<ExitState>, i: nat, j: nat, n: nat)
    requires WellFormed(g) && t < g.T && j <= n <= |g.exits| == |xs|
    ensures FirstExit(g, t, xs, i, j).Some? ==> FirstExit(g, t, xs, i, n) == FirstExit(g, t, xs, i, j)
  {
    if j < n {
      FirstExitStable(g, t, xs, i, j, n - 1);
    }
  }

  lemma FirstExitStart(g: Signal, t: nat, xs: seq<ExitState>)
    requires WellFormed(g) && t < g.T && |g.exits| == |xs|
    ensures forall i: nat :: FirstExit(g, t, xs, i, 0).None?
  {}

  class Loop {
    const g: Signal
    var es: seq<EntryState>
    var xs: seq<ExitState>
    var armings: seq<seq<nat>>
    var position: seq<seq<real>>
    var exitFired: seq<seq<nat>>
    var resetFired: seq<seq<nat>>

    function View(): State
      reads this
    {
      State(es, xs, armings, position)
    }

    predicate Valid()
      reads this
    {
      WellFormed(g) && Fits(g, View())
    }

    /** The traces of the exit and reset conditions, whatever they act on. */
    ghost predicate Traced(t: nat)
      requires WellFormed(g) && t <= g.T
      reads this
    {
      && |exitFired| == |g.exits| && |resetFired| == |g.resets|
      && (forall j :: 0 <= j < |g.exits| ==> exitFired[j] == Bars(g.exits[j].truth, t))
      && (forall r :: 0 <= r < |g.resets| ==> resetFired[r] == Bars(Clean(g.resets[r]), t))
    }

    constructor (g: Signal)
      requires WellFormed(g)
      ensures this.g == g && Valid() && View() == Start(g) && Traced(0)
    {
      exitFired := seq(|g.exits|, _ => []);
      resetFired := seq(|g.resets|, _ => []);
      this.g := g;
      es := seq(|g.entries|, _ => EntryState(false, true, 0, [], [], [], [], A.Idle));
      xs := seq(|g.exits|, _ => ExitState(true, 0, []));
      armings := seq(|g.resets|, _ => []);
      position := seq(|g.referenced|, _ => seq(g.T, _ => 0.0));
    }

    /** (a) Record the precomputed fires. */
    method RecordFired(t: nat)
      requires Valid() && t < g.T && Traced(t)
      modifies this`es, this`exitFired, this`resetFired
      ensures Valid() && Traced(t + 1)
      ensures forall i :: 0 <= i < |es| ==> es[i] == Recorded(g, t, i, old(es)[i])
    {
      TraceExits(t);
      TraceResets(t);
      for i := 0 to |g.entries|
        invariant |es| == |g.entries| && Traced(t + 1)
        invariant forall k :: 0 <= k < |es| ==>
                    es[k] == if k < i then Recorded(g, t, k, old(es)[k]) else old(es)[k]
      {
        if g.entries[i].chain.None? && g.entries[i].truth[t] {
          es := es[i := es[i].(fired := es[i].fired + [t])];
        }
      }
    }

    method TraceExits(t: nat)
      requires WellFormed(g) && t < g.T && |exitFired| == |g.exits|
      requires forall j :: 0 <= j < |g.exits| ==> exitFired[j] == Bars(g.exits[j].truth, t)
      modifies this`exitFired
      ensures |exitFired| == |g.exits|
      ensures forall j :: 0 <= j < |g.exits| ==> exitFired[j] == Bars(g.exits[j].truth, t + 1)
    {
      for j := 0 to |g.exits|
        invariant |exitFired| == |g.exits|
        invariant forall k :: 0 <= k < |g.exits| ==>
                    exitFired[k] == Bars(g.exits[k].truth, if k < j then t + 1 else t)
      {
        if g.exits[j].truth[t] {
          exitFired := exitFired[j := exitFired[j] + [t]];
        }
      }
    }

    method TraceResets(t: nat)
      requires WellFormed(g) && t < g.T && |resetFired| == |g.resets|
      requires forall r :: 0 <= r < |g.resets| ==> resetFired[r] == Bars(Clean(g.resets[r]), t)
      modifies this`resetFired
      ensures |resetFired| == |g.resets|
      ensures forall r :: 0 <= r < |g.resets| ==> resetFired[r] == Bars(Clean(g.resets[r]), t + 1)
    {
      for r := 0 to |g.resets|
        invariant |resetFired| == |g.resets|
        invariant forall k :: 0 <= k < |g.resets| ==>
                    resetFired[k] == Bars(Clean(g.resets[k]), if k < r then t + 1 else t)
      {
        if g.resets[r].truth[t] && !g.resets[r].nan[t] {
          resetFired := resetFired[r := resetFired[r] + [t]];
        }
      }
    }

    /** Which exit has reached entry i once exit j has gone through k targets. */
    ghost function Reached(s: State, t: nat, j: nat, k: nat, i: nat): Option<nat>
      requires WellFormed(g) && Fits(g, s) && t < g.T && j < |g.exits| && k <= |g.exits[j].targets|
    {
      if FirstExit(g, t, s.xs, i, j).Some? then FirstExit(g, t, s.xs, i, j)
      else if Hits(g, j, k, i) then Some(j) else None
    }

    /** Exit j's first k targets include an entry it is the first to clear. */
    ghost predicate Clears(s: State, t: nat, j: nat, k: nat)
      requires WellFormed(g) && Fits(g, s) && t < g.T && j < |g.exits| && k <= |g.exits[j].targets|
    {
      exists i :: 0 <= i < |s.es| && s.es[i].latched
                  && FirstExit(g, t, s.xs, i, j).None? && Reached(s, t, j, k, i).Some?
    }

    lemma ReachedNext(s: State, t: nat, j: nat, k: nat)
      requires WellFormed(g) && Fits(g, s) && t < g.T && j < |g.exits| && k < |g.exits[j].targets|
      ensures forall i: nat :: Reached(s, t, j, k + 1, i) ==
                if Reached(s, t, j, k, i).None? && Resolve(g.entries, g.exits[j].targets[k]) == Some(i) then Some(j)
                else Reached(s, t, j, k, i)
      ensures forall i: nat :: FirstExit(g, t, s.xs, i, j).Some? ==> Reached(s, t, j, k, i).Some?
      ensures Clears(s, t, j, k + 1) <==>
                || Clears(s, t, j, k)
                || (var r := Resolve(g.entries, g.exits[j].targets[k]);
                    r.Some? && s.es[r.value].latched && Reached(s, t, j, k, r.value).None?)
    {
      hide Resolve;
      forall i: nat
        ensures Hits(g, j, k + 1, i) <==> Hits(g, j, k, i) || Resolve(g.entries, g.exits[j].targets[k]) == Some(i)
      {
        if Resolve(g.entries, g.exits[j].targets[k]) == Some(i) { assert Hits(g, j, k + 1, i); }
      }
    }

    lemma ReachedEnds(s: State, t: nat, j: nat)
      requires WellFormed(g) && Fits(g, s) && t < g.T && j < |g.exits|
      ensures forall i: nat :: Reached(s, t, j, 0, i) == FirstExit(g, t, s.xs, i, j)
      ensures forall i: nat :: FirstExit(g, t, s.xs, i, j + 1) ==
                if Loaded(g, t, s.xs[j], j) then Reached(s, t, j, |g.exits[j].targets|, i)
                else FirstExit(g, t, s.xs, i, j)
      ensures ExitEffective(g, t, s, j) <==>
                Loaded(g, t, s.xs[j], j) && Clears(s, t, j, |g.exits[j].targets|)
      ensures !Clears(s, t, j, 0)
    {
      forall i: nat
        ensures FirstExit(g, t, s.xs, i, |g.exits|) == Some(j) <==>
                FirstExit(g, t, s.xs, i, j).None? && FirstExit(g, t, s.xs, i, j + 1).Some?
      {
        FirstExitStable(g, t, s.xs, i, j, |g.exits|);
        FirstExitStable(g, t, s.xs, i, j + 1, |g.exits|);
      }
    }

    /** (b) Exits clear every targeted entry that is open. */
    method ClearPass(t: nat) returns (closed: set<nat>)
      requires Valid() && t < g.T
      modifies this`es, this`xs
      ensures Valid() && View() == Cleared(g, t, old(View()))
      ensures forall i: nat :: i in closed <==> i < |g.entries| && ClosedNow(g, t, old(View()), i)
      ensures forall i :: 0 <= i < |es| ==>
                && ClosedRight(g, t, old(xs), i, old(es[i]), es[i])
                && (es[i].latched <==> old(es[i].latched) && !Shut(g, t, old(xs), i))
    {
      hide FirstExit, Hits, Loaded, ExitEffective, WellFormed, Spent, ClosedRight, Shut;
      closed := {};
      ghost var s := View();
      assert forall i: nat :: FirstExit(g, t, s.xs, i, 0).None? by { FirstExitStart(g, t, s.xs); }
      for j := 0 to |g.exits|
        invariant |es| == |s.es| && |xs| == |s.xs|
        invariant forall i :: 0 <= i < |es| ==> es[i] == ClearedBy(s.es[i], FirstExit(g, t, s.xs, i, j), t)
        invariant forall i: nat :: i in closed <==>
                    i < |s.es| && s.es[i].latched && FirstExit(g, t, s.xs, i, j).Some?
        invariant forall k :: 0 <= k < |xs| ==>
                    xs[k] == if k < j && ExitEffective(g, t, s, k) then Spent(s.xs[k], g.exits[k].binding, t)
                             else s.xs[k]
      {
        ReachedEnds(s, t, j);
        var clearedAny := false;
        if Loaded(g, t, xs[j], j) {
          clearedAny, closed := ClearTargets(t, j, closed, s);
        }
        if clearedAny {
          xs := xs[j := Spent(xs[j], g.exits[j].binding, t)];
        }
      }
      forall i | 0 <= i < |es|
        ensures ClosedRight(g, t, s.xs, i, s.es[i], es[i]) && (es[i].latched <==> s.es[i].latched && !Shut(g, t, s.xs, i))
      {
        ClearedRight(g, t, s, i);
      }
    }

    /** Clear the open entries among exit j's targets. */
    method ClearTargets(t: nat, j: nat, closed0: set<nat>, ghost s: State)
      returns (clearedAny: bool, closed: set<nat>)
      requires WellFormed(g) && Fits(g, s) && t < g.T && j < |g.exits| && |es| == |s.es|
      requires forall i :: 0 <= i < |es| ==> es[i] == ClearedBy(s.es[i], FirstExit(g, t, s.xs, i, j), t)
      requires forall i: nat :: i in closed0 <==>
                 i < |s.es| && s.es[i].latched && FirstExit(g, t, s.xs, i, j).Some?
      modifies this`es
      ensures |es| == |s.es|
      ensures forall i :: 0 <= i < |es| ==>
                es[i] == ClearedBy(s.es[i], Reached(s, t, j, |g.exits[j].targets|, i), t)
      ensures forall i: nat :: i in closed <==>
                i < |s.es| && s.es[i].latched && Reached(s, t, j, |g.exits[j].targets|, i).Some?
      ensures clearedAny <==> Clears(s, t, j, |g.exits[j].targets|)
    {
      hide FirstExit, Hits, Reached, WellFormed, Resolve, Clears;
      clearedAny, closed := false, closed0;
      var targets := g.exits[j].targets;
      ReachedEnds(s, t, j);
      for k := 0 to |targets|
        invariant |es| == |s.es|
        invariant forall i :: 0 <= i < |es| ==> es[i] == ClearedBy(s.es[i], Reached(s, t, j, k, i), t)
        invariant forall i: nat :: i in closed <==>
                    i < |s.es| && s.es[i].latched && Reached(s, t, j, k, i).Some?
        invariant clearedAny <==> Clears(s, t, j, k)
      {
        ReachedNext(s, t, j, k);
        var target := Resolve(g.entries, targets[k]);
        if target.Some? && es[target.value].latched {
          var i := target.value;
          es := es[i := es[i].(latched := false, closes := es[i].closes + [Close(t, j)])];
          closed := closed + {i};
          clearedAny := true;
        }
      }
    }

    /** (b.5) Advance the in-loop automata, aborted by this bar's actual closes. */
    method ScanPass(t: nat, closed: set<nat>) returns (fires: seq<bool>)
      requires Valid() && t < g.T
      modifies this`es
      ensures Valid() && |fires| == |es|
      ensures forall i :: 0 <= i < |es| ==>
                (es[i], fires[i]) == ScannedChain(g, t, i, old(es)[i], i in closed)
    {
      fires := [];
      for i := 0 to |g.entries|
        invariant |es| == |g.entries| && |fires| == i
        invariant forall k :: 0 <= k < i ==>
                    (es[k], fires[k]) == ScannedChain(g, t, k, old(es)[k], k in closed)
        invariant forall k :: i <= k < |es| ==> es[k] == old(es)[k]
      {
        var fired := g.entries[i].truth[t];
        if g.entries[i].chain.Some? {
          var cand;
          cand, fired := AdvanceCandidate(g.entries[i].chain.value, es[i].cand, i in closed, t);
          es := es[i := es[i].(cand := cand, fired := if fired then es[i].fired + [t] else es[i].fired)];
        }
        fires := fires + [fired];
      }
    }

    /** (c) Fires open flat entries whose arm allows it, and consume the arm. */
    method EntryPass(t: nat, fires: seq<bool>)
      requires Valid() && t < g.T && |fires| == |es|
      modifies this`es
      ensures Valid()
      ensures forall i :: 0 <= i < |es| ==> es[i] == Open(g, t, i, old(es)[i], fires[i])
    {
      for i := 0 to |g.entries|
        invariant |es| == |g.entries|
        invariant forall k :: 0 <= k < |es| ==>
                    es[k] == if k < i then Open(g, t, k, old(es)[k], fires[k]) else old(es)[k]
      {
        var b := g.entries[i].binding;
        if fires[i] && (b.Some? ==> es[i].armed) && !es[i].latched {
          es := es[i := es[i].(latched := true, opens := es[i].opens + [t])];
          if b.Some? {
            es := es[i := es[i].(armed := false, countdown := Need(b.value))];
          }
        }
      }
    }

    /** (c.5) Each firing reset counts down the disarmed blocks bound to it. */
    method ResetPass(t: nat)
      requires Valid() && t < g.T
      modifies this`es, this`xs, this`armings
      ensures Valid() && View() == Rearmed(g, t, old(View()))
    {
      hide HitBefore, HitBy;
      ghost var s := View();
      HitsBefore(g, t);
      for r := 0 to |g.resets|
        invariant |es| == |s.es| && |xs| == |s.xs| && |armings| == |s.armings| && position == s.position
        invariant forall i :: 0 <= i < |es| ==>
                    es[i] == CountedEntry(s.es[i], g.entries[i].binding, HitBefore(g, g.entries[i].binding, t, r))
        invariant forall j :: 0 <= j < |xs| ==>
                    xs[j] == CountedExit(s.xs[j], g.exits[j].binding, HitBefore(g, g.exits[j].binding, t, r))
        invariant forall q :: 0 <= q < |armings| ==>
                    armings[q] == if q < r && g.resets[q].truth[t] && !g.resets[q].nan[t]
                                     && SomeRestored(g, s, g.resets[q].id)
                                  then s.armings[q] + [t] else s.armings[q]
      {
        HitsNext(g, t, r);
        if g.resets[r].truth[t] && !g.resets[r].nan[t] {
          ArmBound(t, r, s);
        }
      }
    }

    /** One firing reset. */
    method ArmBound(t: nat, r: nat, ghost s: State)
      requires WellFormed(g) && Fits(g, s) && t < g.T && r < |g.resets|
      requires g.resets[r].truth[t] && !g.resets[r].nan[t]
      requires |es| == |s.es| && |xs| == |s.xs| && |armings| == |s.armings|
      requires forall i :: 0 <= i < |es| ==>
                 es[i] == CountedEntry(s.es[i], g.entries[i].binding, HitBefore(g, g.entries[i].binding, t, r))
      requires forall j :: 0 <= j < |xs| ==>
                 xs[j] == CountedExit(s.xs[j], g.exits[j].binding, HitBefore(g, g.exits[j].binding, t, r))
      modifies this`es, this`xs, this`armings
      ensures |es| == |s.es| && |xs| == |s.xs|
      ensures forall i :: 0 <= i < |es| ==>
                es[i] == CountedEntry(s.es[i], g.entries[i].binding, HitBefore(g, g.entries[i].binding, t, r + 1))
      ensures forall j :: 0 <= j < |xs| ==>
                xs[j] == CountedExit(s.xs[j], g.exits[j].binding, HitBefore(g, g.exits[j].binding, t, r + 1))
      ensures armings == if SomeRestored(g, s, g.resets[r].id) then old(armings)[r := old(armings)[r] + [t]]
                         else old(armings)
    {
      hide HitBefore, WellFormed;
      HitsNext(g, t, r);
      var id := g.resets[r].id;
      var anyEntry := ArmEntries(id);
      var anyExit := ArmExits(id);
      if anyEntry || anyExit {
        armings := armings[r := armings[r] + [t]];
      }
    }

    method ArmEntries(id: ResetId) returns (any: bool)
      requires |es| == |g.entries|
      modifies this`es
      ensures |es| == |old(es)|
      ensures forall i :: 0 <= i < |es| ==>
                es[i] == CountedEntry(old(es)[i], g.entries[i].binding, BoundTo(g.entries[i].binding, id))
      ensures any <==> (exists i :: 0 <= i < |es| && Restores(old(es)[i].armed, old(es)[i].countdown, g.entries[i].binding, id))
    {
      any := false;
      for i := 0 to |g.entries|
        invariant |es| == |old(es)|
        invariant forall k :: 0 <= k < |es| ==>
                    es[k] == if k < i then CountedEntry(old(es)[k], g.entries[k].binding, BoundTo(g.entries[k].binding, id))
                             else old(es)[k]
        invariant any <==> (exists k :: 0 <= k < i && Restores(old(es)[k].armed, old(es)[k].countdown, g.entries[k].binding, id))
      {
        if BoundTo(g.entries[i].binding, id) && !es[i].armed {
          es := es[i := es[i].(countdown := es[i].countdown - 1)];
          if es[i].countdown <= 0 {
            es := es[i := es[i].(armed := true)];
            any := true;
          }
        }
      }
    }

    method ArmExits(id: ResetId) returns (any: bool)
      requires |xs| == |g.exits|
      modifies this`xs
      ensures |xs| == |old(xs)|
      ensures forall i :: 0 <= i < |xs| ==>
                xs[i] == CountedExit(old(xs)[i], g.exits[i].binding, BoundTo(g.exits[i].binding, id))
      ensures any <==> (exists i :: 0 <= i < |xs| && Restores(old(xs)[i].armed, old(xs)[i].countdown, g.exits[i].binding, id))
    {
      any := false;
      for i := 0 to |g.exits|
        invariant |xs| == |old(xs)|
        invariant forall k :: 0 <= k < |xs| ==>
                    xs[k] == if k < i then CountedExit(old(xs)[k], g.exits[k].binding, BoundTo(g.exits[k].binding, id))
                             else old(xs)[k]
        invariant any <==> (exists k :: 0 <= k < i && Restores(old(xs)[k].armed, old(xs)[k].countdown, g.exits[k].binding, id))
      {
        if BoundTo(g.exits[i].binding, id) && !xs[i].armed {
          xs := xs[i := xs[i].(countdown := xs[i].countdown - 1)];
          if xs[i].countdown <= 0 {
            xs := xs[i := xs[i].(armed := true)];
            any := true;
          }
        }
      }
    }

    /** (d) Emit every input's net position and record the open entries. */
    method EmitPass(t: nat)
      requires Valid() && t < g.T
      modifies this`es, this`position
      ensures Valid() && View() == Emitted(g, t, old(View()))
    {
      ghost var s := View();
      hide NetPosition;
      for p := 0 to |g.referenced|
        invariant |es| == |s.es| && |position| == |s.position|
        invariant forall i :: 0 <= i < |es| ==>
                    es[i] == Marked(s.es[i], t, g.entries[i].input in g.referenced[..p])
        invariant forall q :: 0 <= q < |position| ==>
                    position[q] == if q < p then s.position[q][t := NetPosition(g, s.es, g.referenced[q], |s.es|)]
                                   else s.position[q]
      {
        var rid := g.referenced[p];
        var acc := EmitInput(t, rid, g.referenced[..p], s.es);
        position := position[p := position[p][t := acc]];
        forall i | 0 <= i < |es|
          ensures g.entries[i].input in g.referenced[..p + 1] <==>
                  g.entries[i].input in g.referenced[..p] || g.entries[i].input == rid
        {
          assert g.referenced[..p + 1] == g.referenced[..p] + [rid];
        }
      }
      assert g.referenced[..|g.referenced|] == g.referenced;
    }

    method EmitInput(t: nat, rid: InputId, ghost before: seq<InputId>, ghost es0: seq<EntryState>)
      returns (acc: real)
      requires |es| == |es0| == |g.entries| && rid !in before
      requires forall i :: 0 <= i < |es| ==> es[i] == Marked(es0[i], t, g.entries[i].input in before)
      modifies this`es
      ensures acc == NetPosition(g, es0, rid, |es0|) && |es| == |es0|
      ensures forall i :: 0 <= i < |es| ==>
                es[i] == Marked(es0[i], t, g.entries[i].input in before || g.entries[i].input == rid)
    {
      acc := 0.0;
      for i := 0 to |g.entries|
        invariant |es| == |es0| && acc == NetPosition(g, es0, rid, i)
        invariant forall k :: 0 <= k < |es| ==>
                    es[k] == Marked(es0[k], t, g.entries[k].input in before || (k < i && g.entries[k].input == rid))
      {
        if es[i].latched && g.entries[i].input == rid {
          acc := acc + SignedWeight(g.entries[i].weight);
          es := es[i := es[i].(active := es[i].active + [t])];
        }
      }
    }

    /** One bar. */
    method StepBar(t: nat)
      requires Valid() && t < g.T && Traced(t)
      modifies this
      ensures Valid() && View() == Bar(g, t, old(View())) && Traced(t + 1)
    {
      hide ClosedRight, Shut, SomeRestored, Recount, NetPosition, ExitEffective, A.Step;
      ghost var s := View();
      RecordFired(t);
      ghost var s1 := View();
      var closed := ClearPass(t);
      ghost var s2 := View();
      var fires := ScanPass(t, closed);
      EntryPass(t, fires);
      ClearIgnoresFired(g, t, s, s1);
      forall i | 0 <= i < |es| ensures es[i] == Entered(g, t, s).es[i] {
        assert s2.es[i] == ClearedBy(s1.es[i], FirstExit(g, t, s.xs, i, |g.exits|), t);
      }
      assert View() == Entered(g, t, s);
      ResetPass(t);
      EmitPass(t);
    }

    /** The whole run. */
    method RunAll()
      requires Valid() && View() == Start(g) && Traced(0)
      modifies this
      ensures Valid() && View() == Run(g, g.T) && Traced(g.T)
    {
      for t := 0 to g.T
        invariant Valid() && View() == Run(g, t) && Traced(t)
      {
        StepBar(t);
      }
    }

    /** Pair every open with its close, entry by entry in declaration order. */
    method DeriveTrades() returns (trades: seq<Trade>)
      requires Valid()
      requires forall i :: 0 <= i < |es| ==> |es[i].closes| <= |es[i].opens|
      ensures trades == Trades(g, es, |g.entries|)
    {
      trades := [];
      for i := 0 to |g.entries|
        invariant trades == Trades(g, es, i)
      {
        ghost var before := trades;
        for k := 0 to |es[i].opens|
          invariant trades == before + EntryTrades(g, i, es[i], k)
        {
          if k < |es[i].closes| {
            trades := trades + [Trade(g.entries[i].input, i, Some(es[i].closes[k].exit), es[i].opens[k],
                                      Some(es[i].closes[k].bar), SignedWeight(g.entries[i].weight))];
          } else {
            trades := trades + [Trade(g.entries[i].input, i, None, es[i].opens[k], None,
                                      SignedWeight(g.entries[i].weight))];
          }
          assert EntryTrades(g, i, es[i], k + 1) == EntryTrades(g, i, es[i], k) + [TradeOf(g, i, es[i], k)];
        }
      }
    }
  }

  // ----- Traces ------------------------------------------------------------

  /** The bars before t that are set. */
  function Bars(b: seq<bool>, t: nat): seq<nat>
    requires t <= |b|
  {
    if t == 0 then [] else Bars(b, t - 1) + if b[t - 1] then [t - 1] else []
  }

  /** Where a reset fires: never on a bar that misses an operand. */
  function Clean(r: Reset): (b: seq<bool>)
    requires |r.truth| == |r.nan|
    ensures |b| == |r.truth| && forall t :: 0 <= t < |b| ==> b[t] == (r.truth[t] && !r.nan[t])
  {
    seq(|r.truth|, t requires 0 <= t < |r.truth| => r.truth[t] && !r.nan[t])
  }

  /** Every effective exit and every arming reset is in its trace. */
  lemma {:induction false} EffectsAreFired(g: Signal, t: nat)
    requires WellFormed(g) && t <= g.T
    ensures forall j, u: nat :: 0 <= j < |g.exits| && u in Run(g, t).xs[j].effective ==> u in Bars(g.exits[j].truth, t)
    ensures forall r, u: nat :: 0 <= r < |g.resets| && u in Run(g, t).armings[r] ==> u in Bars(Clean(g.resets[r]), t)
  {
    hide Run;
    if t == 0 {
      RunStarts(g);
    } else {
      EffectsAreFired(g, t - 1);
      forall j | 0 <= j < |g.exits|
        ensures forall u: nat :: u in Run(g, t).xs[j].effective ==> u in Bars(g.exits[j].truth, t)
      {
        ExitRuns(g, t - 1, j);
      }
      ArmingsRun(g, t - 1);
    }
  }

  lemma ArmingsRun(g: Signal, t: nat)
    requires WellFormed(g) && t < g.T
    ensures forall r :: 0 <= r < |g.resets| ==>
              var a, a' := Run(g, t).armings[r], Run(g, t + 1).armings[r];
              a' == a || (a' == a + [t] && Clean(g.resets[r])[t])
  {
    hide ResetFires, SomeRestored;
  }

  // ----- The passes entry by entry -----------------------------------------

  function Recorded(g: Signal, t: nat, i: nat, e: EntryState): EntryState
    requires WellFormed(g) && t < g.T && i < |g.entries|
  {
    if g.entries[i].chain.None? && g.entries[i].truth[t] then e.(fired := e.fired + [t]) else e
  }

  function ScannedChain(g: Signal, t: nat, i: nat, e: EntryState, closed: bool): (EntryState, bool)
    requires WellFormed(g) && t < g.T && i < |g.entries|
  {
    if g.entries[i].chain.Some? then Scan(g, t, i, e, closed) else (e, g.entries[i].truth[t])
  }

  function CountedEntry(e: EntryState, b: Option<Binding>, hit: bool): EntryState {
    var (a, c) := Recount(e.armed, e.countdown, b, hit);
    e.(armed := a, countdown := c)
  }

  function CountedExit(x: ExitState, b: Option<Binding>, hit: bool): ExitState {
    var (a, c) := Recount(x.armed, x.countdown, b, hit);
    x.(armed := a, countdown := c)
  }

  function Marked(e: EntryState, t: nat, emitted: bool): EntryState {
    if e.latched && emitted then e.(active := e.active + [t]) else e
  }

  /** One of the first n resets fired on bar t and is the one b is bound to. */
  predicate HitBefore(g: Signal, b: Option<Binding>, t: nat, n: nat)
    requires WellFormed(g) && t < g.T && n <= |g.resets|
  {
    b.Some? && exists r :: 0 <= r < n && g.resets[r].id == b.value.reset
                           && g.resets[r].truth[t] && !g.resets[r].nan[t]
  }

  lemma HitsBefore(g: Signal, t: nat)
    requires WellFormed(g) && t < g.T
    ensures forall b :: !HitBefore(g, b, t, 0)
    ensures forall b :: HitBefore(g, b, t, |g.resets|) == HitBy(g, b, t)
  {}

  /** A block is hit by at most one reset, the one it is bound to. */
  lemma HitsNext(g: Signal, t: nat, r: nat)
    requires WellFormed(g) && t < g.T && r < |g.resets|
    ensures forall b :: BoundTo(b, g.resets[r].id) ==> !HitBefore(g, b, t, r)
    ensures forall b :: HitBefore(g, b, t, r + 1) ==
              (HitBefore(g, b, t, r) ||
               (BoundTo(b, g.resets[r].id) && g.resets[r].truth[t] && !g.resets[r].nan[t]))
  {}

  /** The clear pass looks at latches and arms only. */
  lemma ClearIgnoresFired(g: Signal, t: nat, s: State, s': State)
    requires WellFormed(g) && Fits(g, s) && Fits(g, s') && t < g.T && s'.xs == s.xs
    requires forall i :: 0 <= i < |s.es| ==> s'.es[i].latched == s.es[i].latched
    ensures Cleared(g, t, s').xs == Cleared(g, t, s).xs
    ensures forall i :: 0 <= i < |s.es| ==> (ClosedNow(g, t, s', i) <==> ClosedNow(g, t, s, i))
  {
    assert forall j :: 0 <= j < |s.xs| ==> (ExitEffective(g, t, s', j) <==> ExitEffective(g, t, s, j));
  }

  /** One bar of the in-loop automaton: the same strict order as the detector's,
      written against the candidate kept between bars. */
  method AdvanceCandidate(c: A.Chain, k: A.Candidate, closed: bool, t: nat)
    returns (cand: A.Candidate, fired: bool)
    requires A.IsChain(c) && t < c.T
    ensures (cand, fired) == A.Step(c, closed, k, t)
  {
    var m := |c.truth|;
    cand, fired := k, false;
    if cand.InFlight? && cand.stage < m - 1 && t - cand.tau > c.windows[cand.stage] {
      cand := A.Idle;
    }
    if cand.InFlight? && cand.stage < m - 1 && c.nan[cand.stage + 1][t] {
      cand := A.Idle;
    }
    if closed {
      cand := A.Idle;
    }
    if cand.InFlight? && cand.stage < m - 1 {
      var nxt := cand.stage + 1;
      if c.truth[nxt][t] && 1 <= t - cand.tau <= c.windows[cand.stage] {
        cand := A.InFlight(nxt, t);
        if nxt == m - 1 {
          fired := true;
          cand := A.Idle;
        }
      }
    }
    if c.truth[0][t] {
      cand := A.InFlight(0, t);
    }
  }
}
