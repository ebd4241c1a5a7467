/** The THEN-chain automaton of a signal block: the single-candidate automaton that
    recognises a chain of stages, the multi-candidate automaton it restricts, and
    what each of them detects. */
module Automaton {
  import opened Wrappers

  // ----- The chain ---------------------------------------------------------

  /** `truth[r][t]`: every condition of group r matched at bar t.
      `nan[r][t]`: some operand of group r is missing at bar t.
      Truth and NaN are independent inputs: a windowed cross count can be true
      on a bar where one of its operands is missing.
      `windows[r]`: bars allowed from stage r's match to stage r+1's. */
  datatype Chain = Chain(truth: seq<seq<bool>>, nan: seq<seq<bool>>, windows: seq<int>, T: nat)

  predicate Shaped(c: Chain) {
    && |c.truth| == |c.nan|
    && |c.windows| == MaxInt(|c.truth| - 1, 0)
    && (forall r :: 0 <= r < |c.truth| ==> |c.truth[r]| == c.T)
    && (forall r :: 0 <= r < |c.nan| ==> |c.nan[r]| == c.T)
  }

  /** A chain that a block with at least one THEN boundary produces. */
  predicate IsChain(c: Chain) {
    Shaped(c) && |c.truth| >= 2
  }

  /** The single in-flight candidate: nothing, or the highest stage reached and
      the bar of that stage's match. */
  datatype Candidate = Idle | InFlight(stage: nat, tau: nat)

  // ----- One bar -----------------------------------------------------------

  predicate Awaiting(c: Chain, k: Candidate) {
    k.InFlight? && k.stage < |c.truth| - 1
  }

  function Expire(c: Chain, k: Candidate, t: nat): Candidate
    requires IsChain(c) && t < c.T
  {
    if Awaiting(c, k) && t - k.tau > c.windows[k.stage] then Idle else k
  }

  function NanAbort(c: Chain, k: Candidate, t: nat): Candidate
    requires IsChain(c) && t < c.T
  {
    if Awaiting(c, k) && c.nan[k.stage + 1][t] then Idle else k
  }

  /** The candidate after the advance step, and whether the chain completed. */
  function Advance(c: Chain, k: Candidate, t: nat): (Candidate, bool)
    requires IsChain(c) && t < c.T
  {
    if Awaiting(c, k) && c.truth[k.stage + 1][t] && 1 <= t - k.tau <= c.windows[k.stage] then
      if k.stage + 1 == |c.truth| - 1 then (Idle, true) else (InFlight(k.stage + 1, t), false)
    else
      (k, false)
  }

  function Arm(c: Chain, k: Candidate, t: nat): Candidate
    requires IsChain(c) && t < c.T
  {
    if c.truth[0][t] then InFlight(0, t) else k
  }

  /** The strict per-bar order: expire, NaN-abort, reset-abort, advance, arm. */
  function Step(c: Chain, reset: bool, k: Candidate, t: nat): (Candidate, bool)
    requires IsChain(c) && t < c.T
  {
    var live := NanAbort(c, Expire(c, k, t), t);
    var (next, fired) := Advance(c, if reset then Idle else live, t);
    (Arm(c, next, t), fired)
  }

  // ----- Whole runs --------------------------------------------------------

  /** The candidate at the start of bar t. */
  function At(c: Chain, resets: seq<bool>, t: nat): Candidate
    requires IsChain(c) && |resets| == c.T && t <= c.T
  {
    if t == 0 then Idle else Step(c, resets[t - 1], At(c, resets, t - 1), t - 1).0
  }

  predicate Fires(c: Chain, resets: seq<bool>, t: nat)
    requires IsChain(c) && |resets| == c.T && t < c.T
  {
    Step(c, resets[t], At(c, resets, t), t).1
  }

  /** The multi-candidate semantics: every partial match is followed. */
  function MultiStep(c: Chain, reset: bool, live: set<Candidate>, t: nat): (set<Candidate>, bool)
    requires IsChain(c) && t < c.T
  {
    var kept := if reset then {} else set k | k in live :: NanAbort(c, Expire(c, k, t), t);
    ((set k | k in kept && !Advance(c, k, t).1 :: Advance(c, k, t).0) +
     (if c.truth[0][t] then {InFlight(0, t)} else {}),
     exists k :: k in kept && Advance(c, k, t).1)
  }

  function MultiAt(c: Chain, resets: seq<bool>, t: nat): set<Candidate>
    requires IsChain(c) && |resets| == c.T && t <= c.T
  {
    if t == 0 then {} else MultiStep(c, resets[t - 1], MultiAt(c, resets, t - 1), t - 1).0
  }

  predicate MultiFires(c: Chain, resets: seq<bool>, t: nat)
    requires IsChain(c) && |resets| == c.T && t < c.T
  {
    MultiStep(c, resets[t], MultiAt(c, resets, t), t).1
  }

  // ----- What the automata detect ------------------------------------------

  /** On bar w a candidate of stage r matched at u neither dies nor advances:
      w is in its window and its next group is neither missing nor matched. */
  predicate Lingers(c: Chain, r: nat, u: nat, w: nat)
    requires IsChain(c) && r < |c.truth| - 1 && w < c.T
  {
    w - u <= c.windows[r] && !c.nan[r + 1][w] && !c.truth[r + 1][w]
  }

  ghost predicate Waiting(c: Chain, r: nat, u: nat, t: nat)
    requires IsChain(c) && r < |c.truth| - 1 && t <= c.T
  {
    forall w :: u < w < t ==> Lingers(c, r, u, w)
  }

  /** Stage r matched at u is followed by stage r+1 at v, its first match. */
  ghost predicate Link(c: Chain, r: nat, u: nat, v: nat)
    requires IsChain(c) && r < |c.truth| - 1 && v < c.T
  {
    Waiting(c, r, u, v) && 1 <= v - u <= c.windows[r] && c.truth[r + 1][v] && !c.nan[r + 1][v]
  }

  /** b holds the match bars of stages 0..|b|-1, one after the other. */
  ghost predicate Matched(c: Chain, b: seq<nat>)
    requires IsChain(c)
  {
    && 1 <= |b| <= |c.truth|
    && (forall r :: 0 <= r < |b| ==> b[r] < c.T)
    && c.truth[0][b[0]]
    && forall r :: 0 <= r < |b| - 1 ==> Link(c, r, b[r], b[r + 1])
  }

  ghost predicate NoReset(resets: seq<bool>, lo: nat, hi: nat)
    requires hi <= |resets|
  {
    forall w :: lo < w < hi ==> !resets[w]
  }

  ghost predicate NoHead(c: Chain, lo: nat, hi: nat)
    requires IsChain(c) && hi <= c.T
  {
    forall w :: lo < w < hi ==> !c.truth[0][w]
  }

  /** A match of the whole chain whose last stage matches at t. */
  ghost predicate Completes(c: Chain, b: seq<nat>, t: nat)
    requires IsChain(c) && t < c.T
  {
    Matched(c, b) && |b| == |c.truth| && b[|b| - 1] == t
  }

  /** A match of the whole chain that completes at t, with no reset on the way. */
  ghost predicate Witness(c: Chain, resets: seq<bool>, b: seq<nat>, t: nat)
    requires IsChain(c) && |resets| == c.T && t < c.T
  {
    Completes(c, b, t) && NoReset(resets, b[0], t + 1)
  }

  /** A match of a proper prefix of the chain, still alive at the start of t. */
  ghost predicate Partial(c: Chain, resets: seq<bool>, b: seq<nat>, t: nat)
    requires IsChain(c) && |resets| == c.T && t <= c.T
  {
    && Matched(c, b) && |b| < |c.truth| && b[|b| - 1] < t
    && Waiting(c, |b| - 1, b[|b| - 1], t) && NoReset(resets, b[0], t)
  }

  ghost predicate Tracks(c: Chain, k: Candidate, b: seq<nat>) {
    |b| > 0 && k == InFlight(|b| - 1, b[|b| - 1])
  }

  // ----- Partial matches through one bar -----------------------------------

  lemma MatchedIncreasing(c: Chain, b: seq<nat>, i: nat)
    requires IsChain(c) && Matched(c, b) && i < |b|
    ensures b[0] <= b[i] && (i > 0 ==> b[0] < b[i])
  {
    if i > 0 {
      MatchedIncreasing(c, b, i - 1);
      assert Link(c, i - 1, b[i - 1], b[i]);
    }
  }

  /** What one bar does to a candidate that tracks a live partial match. */
  lemma PartialStep(c: Chain, resets: seq<bool>, b: seq<nat>, k: Candidate, t: nat)
    requires IsChain(c) && |resets| == c.T && t < c.T
    requires Partial(c, resets, b, t) && Tracks(c, k, b)
    ensures var live := if resets[t] then Idle else NanAbort(c, Expire(c, k, t), t);
            var (next, fired) := Advance(c, live, t);
            && (fired <==> Witness(c, resets, b + [t], t))
            && (next.InFlight? && next.tau == t <==> Partial(c, resets, b + [t], t + 1))
            && (next.InFlight? && next.tau == t ==> Tracks(c, next, b + [t]))
            && (next.InFlight? && next.tau < t <==> Partial(c, resets, b, t + 1))
            && (next.InFlight? && next.tau != t ==> next == k)
            && (next.InFlight? ==> next.tau <= t)
  {
    var r := |b| - 1;
    MatchedIncreasing(c, b, r);
    assert Waiting(c, r, b[r], t);
    var b' := b + [t];
    assert Matched(c, b') <==> Link(c, r, b[r], t) by {
      if Matched(c, b') { assert Link(c, r, b'[r], b'[r + 1]); }
      if Link(c, r, b[r], t) {
        forall i | 0 <= i < |b'| - 1 ensures Link(c, i, b'[i], b'[i + 1]) {
          if i < r { assert Link(c, i, b[i], b[i + 1]); }
        }
      }
    }
    assert NoReset(resets, b[0], t + 1) <==> !resets[t] by {
      if NoReset(resets, b[0], t + 1) { assert !resets[t]; }
    }
    assert Waiting(c, r, b[r], t + 1) <==> Lingers(c, r, b[r], t);
    assert b'[r + 1] == t && b'[0] == b[0];
  }

  /** A partial match one bar later extends one that was alive before, or is a
      fresh head. */
  lemma PartialBefore(c: Chain, resets: seq<bool>, b: seq<nat>, t: nat)
    requires IsChain(c) && |resets| == c.T && t < c.T
    requires Partial(c, resets, b, t + 1)
    ensures b[|b| - 1] < t ==> Partial(c, resets, b, t)
    ensures b[|b| - 1] == t && |b| > 1 ==>
              Partial(c, resets, b[..|b| - 1], t) && b == b[..|b| - 1] + [t]
    ensures b[|b| - 1] == t && |b| == 1 ==> b == [t] && c.truth[0][t]
    ensures |b| > 1 ==> b[0] < b[|b| - 1]
  {
    MatchedIncreasing(c, b, |b| - 1);
    if b[|b| - 1] == t && |b| > 1 {
      PrefixPartial(c, resets, b, t);
    }
  }

  /** Dropping the last match of a chain that ends at t leaves a partial match
      that was alive at the start of t. */
  lemma PrefixPartial(c: Chain, resets: seq<bool>, b: seq<nat>, t: nat)
    requires IsChain(c) && |resets| == c.T && t < c.T
    requires Matched(c, b) && |b| > 1 && b[|b| - 1] == t && NoReset(resets, b[0], t + 1)
    ensures Partial(c, resets, b[..|b| - 1], t) && b == b[..|b| - 1] + [t]
  {
    var a := b[..|b| - 1];
    MatchedIncreasing(c, b, |b| - 1);
    assert Link(c, |b| - 2, b[|b| - 2], b[|b| - 1]);
    forall i | 0 <= i < |a| - 1 ensures Link(c, i, a[i], a[i + 1]) {
      assert Link(c, i, b[i], b[i + 1]);
    }
  }

  lemma HeadPartial(c: Chain, resets: seq<bool>, t: nat)
    requires IsChain(c) && |resets| == c.T && t < c.T && c.truth[0][t]
    ensures Partial(c, resets, [t], t + 1) && Tracks(c, InFlight(0, t), [t])
  {}

  // ----- The single-candidate automaton, exactly ---------------------------

  lemma NextInFlight(c: Chain, resets: seq<bool>, t: nat)
    requires IsChain(c) && |resets| == c.T && t < c.T
    ensures var k := At(c, resets, t);
            At(c, resets, t + 1) ==
            if c.truth[0][t] then InFlight(0, t)
            else Advance(c, if resets[t] then Idle else NanAbort(c, Expire(c, k, t), t), t).0
    ensures At(c, resets, t).Idle? && !c.truth[0][t] ==> At(c, resets, t + 1).Idle?
  {
    var k := At(c, resets, t);
    assert k.Idle? ==> Advance(c, NanAbort(c, Expire(c, k, t), t), t).0.Idle? && Advance(c, Idle, t).0.Idle?;
    hide Advance, NanAbort, Expire;
  }

  /** What is in flight is a partial match whose head is the latest one. */
  lemma {:induction false} AtSound(c: Chain, resets: seq<bool>, t: nat) returns (b: seq<nat>)
    requires IsChain(c) && |resets| == c.T && t <= c.T
    ensures At(c, resets, t).InFlight? ==>
              Partial(c, resets, b, t) && Tracks(c, At(c, resets, t), b) && NoHead(c, b[0], t)
  {
    hide At, Advance, NanAbort, Expire, Partial, Witness;
    b := [];
    if t == 0 {
      AtStart(c, resets);
    } else {
      var k, u := At(c, resets, t - 1), t - 1;
      var a := AtSound(c, resets, u);
      NextInFlight(c, resets, u);
      if c.truth[0][u] {
        HeadPartial(c, resets, u);
        b := [u];
      } else if k.InFlight? {
        PartialStep(c, resets, a, k, u);
        var next := At(c, resets, t);
        b := if next.InFlight? && next.tau == u then a + [u] else a;
        assert next.InFlight? ==> b[0] == a[0];
      }
    }
  }

  /** A partial match that no later head has overwritten is in flight. */
  lemma {:induction false} AtComplete(c: Chain, resets: seq<bool>, b: seq<nat>, t: nat)
    requires IsChain(c) && |resets| == c.T && t <= c.T
    requires Partial(c, resets, b, t) && NoHead(c, b[0], t)
    ensures Tracks(c, At(c, resets, t), b)
  {
    var u := t - 1;
    PartialBefore(c, resets, b, u);
    if b[|b| - 1] < u {
      AtComplete(c, resets, b, u);
      MatchedIncreasing(c, b, |b| - 1);
      PartialStep(c, resets, b, At(c, resets, u), u);
    } else if |b| > 1 {
      var a := b[..|b| - 1];
      AtComplete(c, resets, a, u);
      PartialStep(c, resets, a, At(c, resets, u), u);
    }
  }

  /** The one-candidate automaton fires at t exactly when some match of the chain
      completes at t whose head is the latest head before t. */
  lemma FiresIff(c: Chain, resets: seq<bool>, t: nat)
    requires IsChain(c) && |resets| == c.T && t < c.T
    ensures Fires(c, resets, t) <==>
            exists b :: Witness(c, resets, b, t) && NoHead(c, b[0], t)
  {
    var k := At(c, resets, t);
    if Fires(c, resets, t) {
      var a := AtSound(c, resets, t);
      PartialStep(c, resets, a, k, t);
      assert Witness(c, resets, a + [t], t) && NoHead(c, (a + [t])[0], t);
    }
    if exists b :: Witness(c, resets, b, t) && NoHead(c, b[0], t) {
      var b :| Witness(c, resets, b, t) && NoHead(c, b[0], t);
      PrefixPartial(c, resets, b, t);
      AtComplete(c, resets, b[..|b| - 1], t);
      PartialStep(c, resets, b[..|b| - 1], k, t);
    }
  }

  // ----- The multi-candidate automaton, exactly ----------------------------

  lemma {:induction false} MultiAtSound(c: Chain, resets: seq<bool>, t: nat, k: Candidate) returns (b: seq<nat>)
    requires IsChain(c) && |resets| == c.T && t <= c.T
    requires k in MultiAt(c, resets, t)
    ensures k.InFlight? ==> Partial(c, resets, b, t) && Tracks(c, k, b)
  {
    var u := t - 1;
    var live := MultiAt(c, resets, u);
    if k.InFlight? && k.tau == u && k.stage == 0 && c.truth[0][u] {
      HeadPartial(c, resets, u);
      b := [u];
    } else {
      var kept := if resets[u] then {} else set j | j in live :: NanAbort(c, Expire(c, j, u), u);
      var l :| l in kept && !Advance(c, l, u).1 && Advance(c, l, u).0 == k;
      var j :| j in live && NanAbort(c, Expire(c, j, u), u) == l;
      b := MultiAtSound(c, resets, u, j);
      if k.InFlight? {
        PartialStep(c, resets, b, j, u);
        b := if k.tau == u then b + [u] else b;
      }
    }
  }

  lemma MultiHead(c: Chain, resets: seq<bool>, t: nat)
    requires IsChain(c) && |resets| == c.T && t < c.T && c.truth[0][t]
    ensures InFlight(0, t) in MultiAt(c, resets, t + 1)
  {}

  lemma MultiFollows(c: Chain, resets: seq<bool>, t: nat, k: Candidate)
    requires IsChain(c) && |resets| == c.T && t < c.T && k in MultiAt(c, resets, t) && !resets[t]
    ensures var step := Advance(c, NanAbort(c, Expire(c, k, t), t), t);
            !step.1 ==> step.0 in MultiAt(c, resets, t + 1)
  {
    hide Advance, NanAbort, Expire;
    var kept := set j | j in MultiAt(c, resets, t) :: NanAbort(c, Expire(c, j, t), t);
    assert NanAbort(c, Expire(c, k, t), t) in kept;
  }

  lemma {:induction false} MultiAtComplete(c: Chain, resets: seq<bool>, b: seq<nat>, t: nat)
    requires IsChain(c) && |resets| == c.T && t <= c.T
    requires Partial(c, resets, b, t)
    ensures InFlight(|b| - 1, b[|b| - 1]) in MultiAt(c, resets, t)
  {
    hide MultiAt, NanAbort, Expire;
    var u := t - 1;
    PartialBefore(c, resets, b, u);
    if b[|b| - 1] == u && |b| == 1 {
      MultiHead(c, resets, u);
    } else {
      var a := if b[|b| - 1] < u then b else b[..|b| - 1];
      MultiAtComplete(c, resets, a, u);
      PartialStep(c, resets, a, InFlight(|a| - 1, a[|a| - 1]), u);
      assert !resets[u] by { MatchedIncreasing(c, b, |b| - 1); MatchedIncreasing(c, a, |a| - 1); }
      MultiFollows(c, resets, u, InFlight(|a| - 1, a[|a| - 1]));
    }
  }

  /** The multi-candidate automaton fires at t exactly when some match of the
      chain completes at t. */
  lemma MultiFiresIff(c: Chain, resets: seq<bool>, t: nat)
    requires IsChain(c) && |resets| == c.T && t < c.T
    ensures MultiFires(c, resets, t) <==> exists b :: Witness(c, resets, b, t)
  {
    var live := MultiAt(c, resets, t);
    var kept := if resets[t] then {} else set k | k in live :: NanAbort(c, Expire(c, k, t), t);
    if MultiFires(c, resets, t) {
      var l :| l in kept && Advance(c, l, t).1;
      var k :| k in live && NanAbort(c, Expire(c, k, t), t) == l;
      var a := MultiAtSound(c, resets, t, k);
      PartialStep(c, resets, a, k, t);
      assert Witness(c, resets, a + [t], t);
    }
    if exists b :: Witness(c, resets, b, t) {
      var b :| Witness(c, resets, b, t);
      PrefixPartial(c, resets, b, t);
      var a := b[..|b| - 1];
      MultiAtComplete(c, resets, a, t);
      var k := InFlight(|a| - 1, a[|a| - 1]);
      PartialStep(c, resets, a, k, t);
      MatchedIncreasing(c, b, |b| - 1);
      assert !resets[t];
      assert NanAbort(c, Expire(c, k, t), t) in kept;
    }
  }

  // ----- How the two automata compare --------------------------------------

  /** A fire of the one-candidate automaton is never spurious, and a completion
      it misses is one where every match had its head matched again on the way. */
  lemma SingleWithinMulti(c: Chain, resets: seq<bool>, t: nat)
    requires IsChain(c) && |resets| == c.T && t < c.T
    ensures Fires(c, resets, t) ==> MultiFires(c, resets, t)
    ensures MultiFires(c, resets, t) && !Fires(c, resets, t) <==>
            && (exists b :: Witness(c, resets, b, t))
            && (forall b :: Witness(c, resets, b, t) ==> !NoHead(c, b[0], t))
  {
    FiresIff(c, resets, t);
    MultiFiresIff(c, resets, t);
  }

  lemma {:induction false} LastHead(c: Chain, lo: nat, hi: nat) returns (s: nat)
    requires IsChain(c) && lo < hi <= c.T && c.truth[0][lo]
    ensures lo <= s < hi && c.truth[0][s] && NoHead(c, s, hi)
  {
    s := hi - 1;
    if !c.truth[0][s] {
      s := LastHead(c, lo, hi - 1);
    }
  }

  /** With two stages nothing is missed. */
  lemma TwoStageEqual(c: Chain, resets: seq<bool>, t: nat)
    requires IsChain(c) && |c.truth| == 2 && |resets| == c.T && t < c.T
    ensures Fires(c, resets, t) <==> MultiFires(c, resets, t)
  {
    FiresIff(c, resets, t);
    MultiFiresIff(c, resets, t);
    if exists b :: Witness(c, resets, b, t) {
      var b :| Witness(c, resets, b, t);
      assert Link(c, 0, b[0], b[1]);
      var s := LastHead(c, b[0], t);
      forall w | s < w < t ensures Lingers(c, 0, s, w) {
        assert Lingers(c, 0, b[0], w);
      }
      assert Link(c, 0, s, t);
      assert Witness(c, resets, [s, t], t) && NoHead(c, [s, t][0], t);
    }
  }

  /** A two-stage match spelled out: a head bar within the window, no match of
      the second group strictly between, no missing operand of it and no reset
      after the head. */
  ghost predicate TwoStageHit(c: Chain, resets: seq<bool>, s: nat, t: nat)
    requires IsChain(c) && |resets| == c.T && t < c.T
  {
    && s < t && c.truth[0][s] && t - s <= c.windows[0]
    && (forall w :: s < w < t ==> !c.truth[1][w])
    && (forall w :: s < w <= t ==> !c.nan[1][w] && !resets[w])
  }

  lemma TwoStageExact(c: Chain, resets: seq<bool>, t: nat)
    requires IsChain(c) && |c.truth| == 2 && |resets| == c.T && t < c.T
    ensures Fires(c, resets, t) <==> c.truth[1][t] && exists s: nat :: TwoStageHit(c, resets, s, t)
  {
    TwoStageEqual(c, resets, t);
    MultiFiresIff(c, resets, t);
    if MultiFires(c, resets, t) {
      var b :| Witness(c, resets, b, t);
      assert Link(c, 0, b[0], b[1]);
      forall w | b[0] < w < t ensures !c.truth[1][w] && !c.nan[1][w] {
        assert Lingers(c, 0, b[0], w);
      }
      assert TwoStageHit(c, resets, b[0], t);
    }
    if c.truth[1][t] && exists s: nat :: TwoStageHit(c, resets, s, t) {
      var s: nat :| TwoStageHit(c, resets, s, t);
      assert forall w :: s < w < t ==> Lingers(c, 0, s, w);
      assert Link(c, 0, s, t);
      assert Witness(c, resets, [s, t], t);
    }
  }

  /** Three stages over four bars: the head matches at bars 0 and 2, the second
      stage at 1, the third at 3. */
  function RematchedHead(): Chain {
    var off := [false, false, false, false];
    Chain([[true, false, true, false], [false, true, false, false], [false, false, false, true]],
          [off, off, off], [5, 5], 4)
  }

  /** A head match strictly inside the only match of a three-stage chain loses
      its completion. */
  lemma MissedAt(c: Chain, resets: seq<bool>)
    requires IsChain(c) && |c.truth| == 3 && c.T == |resets| == 4
    requires c.truth[0][0] && c.truth[0][2] && c.truth[1][1] && c.truth[2][3]
    requires !c.truth[1][2] && !c.truth[1][3] && !c.truth[2][2] && !c.truth[2][1]
    requires !c.truth[1][0] && !c.truth[2][0]
    requires forall w :: 0 <= w < 4 ==> !c.nan[1][w] && !c.nan[2][w] && !resets[w]
    requires c.windows[0] >= 1 && c.windows[1] >= 2
    ensures MultiFires(c, resets, 3) && !Fires(c, resets, 3)
  {
    MultiFiresIff(c, resets, 3);
    FiresIff(c, resets, 3);
    var b: seq<nat> := [0, 1, 3];
    assert Lingers(c, 1, 1, 2);
    assert Link(c, 0, 0, 1) && Link(c, 1, 1, 3);
    assert Witness(c, resets, b, 3);
    forall a | Witness(c, resets, a, 3) ensures !NoHead(c, a[0], 3) {
      assert Link(c, 0, a[0], a[1]) && Link(c, 1, a[1], a[2]);
      assert a[1] == 1;
    }
  }

  /** So with three stages the one-candidate automaton is a strict restriction. */
  lemma ThreeStageMiss()
    ensures var c, off := RematchedHead(), [false, false, false, false];
            IsChain(c) && MultiFires(c, off, 3) && !Fires(c, off, 3)
  {
    MissedAt(RematchedHead(), [false, false, false, false]);
  }

  // ----- The detector loop -------------------------------------------------

  /** An absent exit-reset array aborts nothing. */
  function Resets(chainReset: Option<seq<bool>>, T: nat): (r: seq<bool>)
    ensures chainReset.Some? ==> r == chainReset.value
    ensures chainReset.None? ==> |r| == T && forall t :: 0 <= t < T ==> !r[t]
  {
    if chainReset.Some? then chainReset.value else seq(T, _ => false)
  }

  /** A match that completes at t, whose head is the latest before t, and which no
      exit reset interrupts, if there are exit resets at all. */
  ghost predicate Detected(c: Chain, chainReset: Option<seq<bool>>, b: seq<nat>, t: nat)
    requires IsChain(c) && t < c.T && (chainReset.Some? ==> |chainReset.value| == c.T)
  {
    Completes(c, b, t) && NoHead(c, b[0], t) && (chainReset.Some? ==> NoReset(chainReset.value, b[0], t + 1))
  }

  lemma FiresDetected(c: Chain, chainReset: Option<seq<bool>>, t: nat)
    requires IsChain(c) && t < c.T && (chainReset.Some? ==> |chainReset.value| == c.T)
    ensures Fires(c, Resets(chainReset, c.T), t) <==> exists b :: Detected(c, chainReset, b, t)
  {
    hide Fires, NoHead, Link;
    FiresIff(c, Resets(chainReset, c.T), t);
    assert forall b :: Witness(c, Resets(chainReset, c.T), b, t) && NoHead(c, b[0], t) <==> Detected(c, chainReset, b, t);
  }

  /** The candidate that a (stage, tau) pair stands for; stage -1 is idle. */
  function Held(stage: int, tau: int): Candidate {
    if stage < 0 || tau < 0 then Idle else InFlight(stage, tau)
  }

  /** One bar of the detector on its two running variables. */
  method StepBar(c: Chain, reset: bool, stage0: int, tau0: int, t: nat)
    returns (stage: int, tau: int, fired: bool)
    requires IsChain(c) && t < c.T
    requires -1 <= stage0 < |c.truth| - 1 && (stage0 >= 0 ==> 0 <= tau0)
    ensures -1 <= stage < |c.truth| - 1 && (stage >= 0 ==> 0 <= tau)
    ensures (Held(stage, tau), fired) == Step(c, reset, Held(stage0, tau0), t)
  {
    var m := |c.truth|;
    stage, tau, fired := stage0, tau0, false;
    if 0 <= stage < m - 1 && t - tau > c.windows[stage] {
      stage, tau := -1, -1;
    }
    if 0 <= stage < m - 1 && c.nan[stage + 1][t] {
      stage, tau := -1, -1;
    }
    if reset {
      stage, tau := -1, -1;
    }
    if 0 <= stage < m - 1 {
      var nxt := stage + 1;
      if c.truth[nxt][t] && 1 <= t - tau <= c.windows[stage] {
        stage, tau := nxt, t;
        if stage == m - 1 {
          fired := true;
          stage, tau := -1, -1;
        }
      }
    }
    if c.truth[0][t] {
      stage, tau := 0, t;
    }
  }

  lemma AtStart(c: Chain, resets: seq<bool>)
    requires IsChain(c) && |resets| == c.T
    ensures At(c, resets, 0) == Idle
  {}

  lemma NextAt(c: Chain, resets: seq<bool>, t: nat)
    requires IsChain(c) && |resets| == c.T && t < c.T
    ensures (At(c, resets, t + 1), Fires(c, resets, t)) == Step(c, resets[t], At(c, resets, t), t)
  {
    hide Step;
  }

  /** The impulse array of one chain. A chain of no stage never fires; a chain of
      one stage is its condition, whatever `chainReset` says. */
  method SequenceActive(c: Chain, chainReset: Option<seq<bool>>) returns (active: array<bool>)
    requires Shaped(c) && (chainReset.Some? ==> |chainReset.value| == c.T)
    ensures active.Length == c.T
    ensures |c.truth| == 0 ==> forall t :: 0 <= t < c.T ==> !active[t]
    ensures |c.truth| == 1 ==> active[..] == c.truth[0]
    ensures |c.truth| >= 2 ==>
              forall t :: 0 <= t < c.T ==> active[t] == Fires(c, Resets(chainReset, c.T), t)
    ensures |c.truth| >= 2 ==>
              forall t :: 0 <= t < c.T ==> (active[t] <==> exists b :: Detected(c, chainReset, b, t))
  {
    hide Step, At, Fires, Detected;
    var m := |c.truth|;
    active := new bool[c.T](_ => false);
    if m == 0 {
      return;
    }
    if m == 1 {
      active := new bool[c.T](t requires 0 <= t < c.T => c.truth[0][t]);
      return;
    }
    var stage, tau := -1, -1;
    ghost var resets := Resets(chainReset, c.T);
    AtStart(c, resets);
    for t := 0 to c.T
      invariant -1 <= stage < m - 1 && (stage >= 0 ==> 0 <= tau)
      invariant At(c, resets, t) == Held(stage, tau)
      invariant forall u :: 0 <= u < t ==> active[u] == Fires(c, resets, u)
    {
      var fired;
      NextAt(c, resets, t);
      stage, tau, fired := StepBar(c, chainReset.Some? && chainReset.value[t], stage, tau, t);
      active[t] := fired;
    }
    forall t | 0 <= t < c.T ensures active[t] <==> exists b :: Detected(c, chainReset, b, t) {
      FiresDetected(c, chainReset, t);
    }
  }
}
