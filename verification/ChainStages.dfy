/** How the conditions of a signal block become the stages of a THEN-chain. */
module ChainStages {
  import opened Wrappers
  import opened Automaton

  /** Condition i starts a new group. */
  predicate Boundary(links: map<int, int>, m: nat, i: int) {
    i in links && links[i] >= 1 && 1 <= i < m
  }

  /** The condition indices lo..hi. */
  function Range(lo: nat, hi: nat): (r: seq<nat>)
    requires lo <= hi
    ensures |r| == hi - lo && forall i :: 0 <= i < |r| ==> r[i] == lo + i
  {
    seq(hi - lo, i requires 0 <= i => lo + i)
  }

  /** The groups cut 0..n at exactly the boundaries below n, in order, and carry
      the boundaries' windows: the last group runs from the last boundary (or
      from 0) to n, and the others cut what comes before it. */
  ghost predicate Cuts(links: map<int, int>, m: nat, groups: seq<seq<nat>>, windows: seq<int>, n: nat)
    decreases |groups|
  {
    if groups == [] || groups[|groups| - 1] == [] then false else
    var k := groups[|groups| - 1][0];
    && k < n && groups[|groups| - 1] == Range(k, n)
    && (forall i :: k < i < n ==> !Boundary(links, m, i))
    && if |groups| == 1 then k == 0 && windows == [] else
         && |windows| > 0 && Boundary(links, m, k) && windows[|windows| - 1] == links[k]
         && Cuts(links, m, groups[..|groups| - 1], windows[..|windows| - 1], k)
  }

  /** Condition i joins the last group. */
  lemma CutsJoin(links: map<int, int>, m: nat, groups: seq<seq<nat>>, cur: seq<nat>, windows: seq<int>, i: nat)
    requires Cuts(links, m, groups + [cur], windows, i) && !Boundary(links, m, i)
    ensures Cuts(links, m, groups + [cur + [i]], windows, i + 1)
  {
    hide Boundary;
    assert (groups + [cur])[..|groups|] == groups == (groups + [cur + [i]])[..|groups|];
  }

  /** Condition i opens a group of its own. */
  lemma CutsOpen(links: map<int, int>, m: nat, groups: seq<seq<nat>>, windows: seq<int>, i: nat)
    requires Cuts(links, m, groups, windows, i) && Boundary(links, m, i)
    ensures Cuts(links, m, groups + [[i]], windows + [links[i]], i + 1)
  {
    assert (groups + [[i]])[..|groups|] == groups;
    assert (windows + [links[i]])[..|windows|] == windows;
  }

  /** The usable boundaries and their windows. */
  function Boundaries(m: nat, links: map<int, int>): (b: map<int, int>)
    ensures forall i :: i in b <==> Boundary(links, m, i)
    ensures forall i :: i in b ==> i in links && b[i] == links[i] >= 1
  {
    map i | i in links && links[i] >= 1 && 1 <= i < m :: links[i]
  }

  /** Partition m conditions into groups at the THEN boundaries; none when there
      is no boundary, so a chain always has at least two stages and every window
      is positive. */
  method LinkGroups(m: nat, links: map<int, int>) returns (r: Option<(seq<seq<nat>>, seq<int>)>)
    ensures r.None? <==> forall i :: 0 <= i < m ==> !Boundary(links, m, i)
    ensures r.Some? ==> Cuts(links, m, r.value.0, r.value.1, m) && |r.value.0| >= 2
    ensures r.Some? ==> forall w :: 0 <= w < |r.value.1| ==> r.value.1[w] >= 1
  {
    if m < 2 {
      return None;
    }
    var boundaries := Boundaries(m, links);
    if boundaries == map[] {
      return None;
    }
    var some :| some in boundaries;
    hide Cuts, Boundary;
    var groups: seq<seq<nat>>, windows: seq<int>, cur: seq<nat> := [], [], [0];
    CutsStart(links, m);
    for i := 1 to m
      invariant Cuts(links, m, groups + [cur], windows, i)
      invariant |groups| == |windows|
      invariant windows == [] ==> forall j :: 0 < j < i ==> j !in boundaries
      invariant forall w :: 0 <= w < |windows| ==> windows[w] >= 1
    {
      if i in boundaries {
        CutsOpen(links, m, groups + [cur], windows, i);
        groups := groups + [cur];
        windows := windows + [boundaries[i]];
        cur := [i];
      } else {
        CutsJoin(links, m, groups, cur, windows, i);
        cur := cur + [i];
      }
    }
    InRange(links, m, some);
    r := Some((groups + [cur], windows));
  }

  lemma CutsStart(links: map<int, int>, m: nat)
    ensures Cuts(links, m, [] + [[0]], [], 1)
  {}

  lemma InRange(links: map<int, int>, m: nat, i: int)
    requires Boundary(links, m, i)
    ensures 1 <= i < m
  {}

  /** Group r holds on bar t: all of its conditions do. */
  ghost predicate GroupHolds(rows: seq<seq<bool>>, group: seq<nat>, t: nat)
    requires forall i :: 0 <= i < |group| ==> group[i] < |rows| && t < |rows[group[i]]|
  {
    forall i :: 0 <= i < |group| ==> rows[group[i]][t]
  }

  /** Group r is missing an operand on bar t: one of its conditions is. */
  ghost predicate GroupMissing(rows: seq<seq<bool>>, group: seq<nat>, t: nat)
    requires forall i :: 0 <= i < |group| ==> group[i] < |rows| && t < |rows[group[i]]|
  {
    exists i :: 0 <= i < |group| && rows[group[i]][t]
  }

  lemma CutsBelow(links: map<int, int>, m: nat, groups: seq<seq<nat>>, windows: seq<int>, n: nat, r: nat)
    requires Cuts(links, m, groups, windows, n) && r < |groups|
    ensures |groups| == |windows| + 1
    ensures forall i :: 0 <= i < |groups[r]| ==> groups[r][i] < n
    decreases |groups|
  {
    if |groups| > 1 {
      var k := groups[|groups| - 1][0];
      CutsBelow(links, m, groups[..|groups| - 1], windows[..|windows| - 1], k, if r < |groups| - 1 then r else 0);
    }
  }

  /** AND the truths and OR the missing marks of each group's conditions. */
  method BlockChainStages(links: map<int, int>, condTruth: seq<seq<bool>>, condNan: seq<seq<bool>>, T: nat)
    returns (r: Option<Chain>, anyNan: seq<bool>, ghost groups: seq<seq<nat>>)
    requires |condTruth| == |condNan|
    requires forall i :: 0 <= i < |condTruth| ==> |condTruth[i]| == |condNan[i]| == T
    ensures r.None? <==> forall i :: 0 <= i < |condTruth| ==> !Boundary(links, |condTruth|, i)
    ensures r.Some? ==>
              && Cuts(links, |condTruth|, groups, r.value.windows, |condTruth|)
              && IsChain(r.value) && r.value.T == T && |r.value.truth| == |groups|
              && (forall g, i :: 0 <= g < |groups| && 0 <= i < |groups[g]| ==> groups[g][i] < |condTruth|)
              && (forall g, t :: 0 <= g < |groups| && 0 <= t < T ==>
                    && (r.value.truth[g][t] <==> GroupHolds(condTruth, groups[g], t))
                    && (r.value.nan[g][t] <==> GroupMissing(condNan, groups[g], t)))
    ensures r.Some? ==> |anyNan| == T && forall t :: 0 <= t < T ==>
              (anyNan[t] <==> exists i :: 0 <= i < |condNan| && condNan[i][t])
  {
    var gw := LinkGroups(|condTruth|, links);
    if gw.None? {
      return None, [], [];
    }
    var (gs, windows) := gw.value;
    groups := gs;
    forall g | 0 <= g < |gs|
      ensures |gs| == |windows| + 1
      ensures forall i :: 0 <= i < |gs[g]| ==> gs[g][i] < |condTruth|
    {
      CutsBelow(links, |condTruth|, gs, windows, |condTruth|, g);
    }
    var truth: seq<seq<bool>>, nan: seq<seq<bool>> := [], [];
    for g := 0 to |gs|
      invariant |truth| == |nan| == g
      invariant forall h :: 0 <= h < g ==> |truth[h]| == |nan[h]| == T
      invariant forall h, t :: 0 <= h < g && 0 <= t < T ==>
                  && (truth[h][t] <==> GroupHolds(condTruth, gs[h], t))
                  && (nan[h][t] <==> GroupMissing(condNan, gs[h], t))
    {
      var gt, gn := GroupStage(condTruth, condNan, gs[g], T);
      truth, nan := truth + [gt], nan + [gn];
    }
    r := Some(Chain(truth, nan, windows, T));
    anyNan := AnyMissing(condNan, T);
  }

  /** Some condition is missing an operand, in whatever group. */
  method AnyMissing(condNan: seq<seq<bool>>, T: nat) returns (anyNan: seq<bool>)
    requires forall i :: 0 <= i < |condNan| ==> |condNan[i]| == T
    ensures |anyNan| == T
    ensures forall t :: 0 <= t < T ==> (anyNan[t] <==> exists i :: 0 <= i < |condNan| && condNan[i][t])
  {
    anyNan := seq(T, _ => false);
    for j := 0 to |condNan|
      invariant |anyNan| == T
      invariant forall t :: 0 <= t < T ==> (anyNan[t] <==> exists i :: 0 <= i < j && condNan[i][t])
    {
      anyNan := seq(T, t requires 0 <= t < T => anyNan[t] || condNan[j][t]);
    }
  }

  method GroupStage(condTruth: seq<seq<bool>>, condNan: seq<seq<bool>>, group: seq<nat>, T: nat)
    returns (gt: seq<bool>, gn: seq<bool>)
    requires forall i :: 0 <= i < |group| ==> group[i] < |condTruth| && group[i] < |condNan|
    requires forall i :: 0 <= i < |condTruth| ==> |condTruth[i]| == T
    requires forall i :: 0 <= i < |condNan| ==> |condNan[i]| == T
    ensures |gt| == |gn| == T
    ensures forall t :: 0 <= t < T ==> (gt[t] <==> GroupHolds(condTruth, group, t))
    ensures forall t :: 0 <= t < T ==> (gn[t] <==> GroupMissing(condNan, group, t))
  {
    gt, gn := seq(T, _ => true), seq(T, _ => false);
    for j := 0 to |group|
      invariant |gt| == |gn| == T
      invariant forall t :: 0 <= t < T ==> (gt[t] <==> GroupHolds(condTruth, group[..j], t))
      invariant forall t :: 0 <= t < T ==> (gn[t] <==> GroupMissing(condNan, group[..j], t))
    {
      ghost var next := group[..j + 1];
      assert next == group[..j] + [group[j]];
      ghost var gt0, gn0 := gt, gn;
      gt := seq(T, t requires 0 <= t < T => gt[t] && condTruth[group[j]][t]);
      gn := seq(T, t requires 0 <= t < T => gn[t] || condNan[group[j]][t]);
      forall t | 0 <= t < T
        ensures gt[t] <==> GroupHolds(condTruth, next, t)
        ensures gn[t] <==> GroupMissing(condNan, next, t)
      {
        assert next[j] == group[j];
        assert gn0[t] ==> exists i :: 0 <= i < j && condNan[next[i]][t] by {
          if gn0[t] { var i :| 0 <= i < j && condNan[group[..j][i]][t]; assert next[i] == group[..j][i]; }
        }
      }
    }
    assert group[..|group|] == group;
  }
}
