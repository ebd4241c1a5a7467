/** The periodic kernel with normalized weights: positive leg values, inverted
    returns for shorts, and no capital for a long leg that is worth exactly 0. */
module RebalanceNormalized {
  import opened Wrappers
  import opened Rebalance

  /** A long leg absorbed to 0 is dead; a short one there is not. */
  predicate Dead(p: Panel, v: seq<real>, l: nat)
    requires l < |v| == |p.w|
  {
    p.w[l] >= 0.0 && v[l] == 0.0
  }

  /** The gross weight of the first k legs that are alive. */
  function AliveWeight(p: Panel, v: seq<real>, k: nat): real
    requires k <= |v| == |p.w|
  {
    if k == 0 then 0.0
    else AliveWeight(p, v, k - 1) + if Dead(p, v, k - 1) then 0.0 else AbsReal(p.w[k - 1])
  }

  function Share(p: Panel, v: seq<real>, l: nat): real
    requires l < |v| == |p.w| && AliveWeight(p, v, |v|) > 0.0
  {
    AbsReal(p.w[l]) / AliveWeight(p, v, |v|)
  }

  /** A living leg gets its share of the total; a dead one is not re-funded. */
  function Funded(p: Panel, v: seq<real>, l: nat): real
    requires l < |v| == |p.w| && AliveWeight(p, v, |v|) > 0.0
  {
    if Dead(p, v, l) then v[l] else Share(p, v, l) * Sum(v, |v|)
  }

  /** The leg values that a boundary leaves. */
  function Refunded(p: Panel, v: seq<real>): (x: seq<real>)
    requires |v| == |p.w|
    ensures |x| == |v|
  {
    if Sum(v, |v|) > 0.0 && AliveWeight(p, v, |v|) > 0.0 then
      seq(|v|, l requires 0 <= l < |v| => Funded(p, v, l))
    else v
  }

  /** A short leg grows by the inverted return. */
  function LegRet(p: Panel, l: nat, i: nat): real
    requires Shaped(p) && l < |p.w| && i < p.n
  {
    if p.w[l] >= 0.0 then Ret(p, l, i) else -Ret(p, l, i)
  }

  function Values(p: Panel, bounds: seq<bool>, i: nat): (v: seq<real>)
    requires Shaped(p) && |bounds| == p.n && i < p.n
    ensures |v| == |p.w|
  {
    if i == 0 then Scaled(Gross(p.w), 100.0)
    else
      var v := Values(p, bounds, i - 1);
      var x := if bounds[i] then Refunded(p, v) else v;
      seq(|v|, l requires 0 <= l < |v| => Moved(x[l], LegRet(p, l, i)))
  }

  function Equity(p: Panel, bounds: seq<bool>, i: nat): real
    requires Shaped(p) && |bounds| == p.n && i < p.n
  {
    if i == 0 then 100.0 else Sum(Values(p, bounds, i), |p.w|)
  }

  // ----- The kernel --------------------------------------------------------

  method Total(v: seq<real>) returns (t: real)
    ensures t == Sum(v, |v|)
  {
    t := 0.0;
    for l := 0 to |v|
      invariant t == Sum(v, l)
    {
      t := t + v[l];
    }
  }

  method LivingWeight(p: Panel, v: seq<real>) returns (alive: real)
    requires |v| == |p.w|
    ensures alive == AliveWeight(p, v, |v|)
  {
    hide AbsReal;
    alive := 0.0;
    for l := 0 to |v|
      invariant alive == AliveWeight(p, v, l)
    {
      if !Dead(p, v, l) {
        alive := alive + AbsReal(p.w[l]);
      }
    }
  }

  /** Redistribute the total over the living legs. */
  method Refund(p: Panel, v: seq<real>) returns (x: seq<real>)
    requires |v| == |p.w|
    ensures x == Refunded(p, v)
  {
    hide AbsReal;
    var total := Total(v);
    var alive := LivingWeight(p, v);
    x := v;
    if total > 0.0 && alive > 0.0 {
      for l := 0 to |v|
        invariant |x| == |v|
        invariant forall m :: 0 <= m < |v| ==>
                    x[m] == if m < l then Funded(p, v, m) else v[m]
      {
        if !Dead(p, x, l) {
          x := x[l := AbsReal(p.w[l]) / alive * total];
          assert x[l] == Funded(p, v, l);
        }
      }
      assert x == Refunded(p, v);
    }
  }

  /** What it takes, over the first k legs, to bring the living legs back to their
      shares, in units of the total. */
  function ShareDistance(p: Panel, v: seq<real>, k: nat): real
    requires k <= |v| == |p.w| && Sum(v, |v|) > 0.0 && AliveWeight(p, v, |v|) > 0.0
  {
    if k == 0 then 0.0
    else ShareDistance(p, v, k - 1) +
         if Dead(p, v, k - 1) then 0.0 else AbsReal(Share(p, v, k - 1) - v[k - 1] / Sum(v, |v|))
  }

  /** The turnover of a boundary that meets leg values v. */
  function Turnover(p: Panel, v: seq<real>): real
    requires |v| == |p.w|
  {
    if Sum(v, |v|) > 0.0 && AliveWeight(p, v, |v|) > 0.0 then ShareDistance(p, v, |v|) else 0.0
  }

  lemma {:induction false} ShareDistanceZero(p: Panel, v: seq<real>, k: nat)
    requires k <= |v| == |p.w| && Sum(v, |v|) > 0.0 && AliveWeight(p, v, |v|) > 0.0
    ensures ShareDistance(p, v, k) >= 0.0
    ensures ShareDistance(p, v, k) == 0.0 <==> forall l :: 0 <= l < k ==> Funded(p, v, l) == v[l]
  {
    if k > 0 {
      hide AbsReal, Sum, AliveWeight, Share;
      ShareDistanceZero(p, v, k - 1);
      AtWeight(Share(p, v, k - 1), v[k - 1], Sum(v, |v|));
    }
  }

  /** A boundary bills nothing exactly when it moves nothing. */
  lemma TurnoverZero(p: Panel, v: seq<real>)
    requires |v| == |p.w|
    ensures Turnover(p, v) >= 0.0
    ensures Turnover(p, v) == 0.0 <==> Refunded(p, v) == v
  {
    hide Sum, AliveWeight, ShareDistance, Funded;
    if Sum(v, |v|) > 0.0 && AliveWeight(p, v, |v|) > 0.0 {
      ShareDistanceZero(p, v, |v|);
      assert Refunded(p, v) == v <==> forall l :: 0 <= l < |v| ==> Funded(p, v, l) == v[l];
    }
  }

  lemma FundedGap(p: Panel, v: seq<real>, l: nat)
    requires l < |v| == |p.w| && Sum(v, |v|) > 0.0 && AliveWeight(p, v, |v|) > 0.0
    ensures var gap := if Dead(p, v, l) then 0.0 else AbsReal(Share(p, v, l) - v[l] / Sum(v, |v|));
            gap * Sum(v, |v|) == AbsReal(Funded(p, v, l) - v[l])
  {
    hide Sum, AliveWeight, Share;
    GapInUnits(Share(p, v, l), v[l], Sum(v, |v|));
  }

  lemma {:induction false} ShareDistanceTraded(p: Panel, v: seq<real>, k: nat)
    requires k <= |v| == |p.w| && Sum(v, |v|) > 0.0 && AliveWeight(p, v, |v|) > 0.0
    ensures ShareDistance(p, v, k) * Sum(v, |v|) == Traded(v, Refunded(p, v), k)
  {
    hide AbsReal, Sum, AliveWeight, Share, Funded, Dead;
    if k > 0 {
      ShareDistanceTraded(p, v, k - 1);
      FundedGap(p, v, k - 1);
      AddScaled(ShareDistance(p, v, k - 1),
                if Dead(p, v, k - 1) then 0.0 else AbsReal(Share(p, v, k - 1) - v[k - 1] / Sum(v, |v|)), Sum(v, |v|));
    }
  }

  lemma {:induction false} NothingTraded(v: seq<real>, k: nat)
    requires k <= |v|
    ensures Traded(v, v, k) == 0.0
  {
    if k > 0 {
      NothingTraded(v, k - 1);
    }
  }

  /** A boundary is billed what it moves: turnover times the total is the sum, over
      all legs, of the distance from the value it had to the value it is left with. */
  lemma TurnoverTrades(p: Panel, v: seq<real>)
    requires |v| == |p.w|
    ensures Turnover(p, v) * Sum(v, |v|) == Traded(v, Refunded(p, v), |v|)
  {
    hide Sum, AliveWeight, ShareDistance, Funded, Traded;
    if Sum(v, |v|) > 0.0 && AliveWeight(p, v, |v|) > 0.0 {
      ShareDistanceTraded(p, v, |v|);
    } else {
      NothingTraded(v, |v|);
    }
  }

  method Drifted(p: Panel, v: seq<real>) returns (turn: real)
    requires |v| == |p.w|
    ensures turn == Turnover(p, v)
  {
    hide AbsReal;
    var total := Total(v);
    var alive := LivingWeight(p, v);
    turn := 0.0;
    if total > 0.0 && alive > 0.0 {
      for l := 0 to |v|
        invariant turn == ShareDistance(p, v, l)
      {
        if !Dead(p, v, l) {
          turn := turn + AbsReal(AbsReal(p.w[l]) / alive - v[l] / total);
        }
      }
    }
  }

  method PeriodicNormalized(p: Panel, bounds: seq<bool>)
    returns (equity: array<real>, legs: array2<real>, turnover: array<real>)
    requires Shaped(p) && |bounds| == p.n
    ensures equity.Length == turnover.Length == p.n && legs.Length0 == |p.w| && legs.Length1 == p.n
    ensures forall i :: 0 <= i < p.n ==> equity[i] == Equity(p, bounds, i)
    ensures forall l, i :: 0 <= l < |p.w| && 0 <= i < p.n ==> legs[l, i] == Values(p, bounds, i)[l]
    ensures turnover[0] == Sum(Gross(p.w), |p.w|)
    ensures forall i :: 1 <= i < p.n ==>
              turnover[i] == if bounds[i] then Turnover(p, Values(p, bounds, i - 1)) else 0.0
  {
    hide Scaled, Gross, Values, Turnover, Sum;
    ValuesStart(p, bounds);
    equity, turnover, legs := new real[p.n], new real[p.n], new real[|p.w|, p.n];
    var entry := GrossWeight(p.w);
    equity[0], turnover[0] := 100.0, entry;
    var v := Scaled(Gross(p.w), 100.0);
    RecordLegs(v, 0, legs);
    for i := 1 to p.n
      invariant v == Values(p, bounds, i - 1)
      invariant forall j :: 0 <= j < i ==> equity[j] == Equity(p, bounds, j)
      invariant forall l, j :: 0 <= l < |p.w| && 0 <= j < i ==> legs[l, j] == Values(p, bounds, j)[l]
      invariant turnover[0] == entry
      invariant forall j :: 1 <= j < i ==>
                  turnover[j] == if bounds[j] then Turnover(p, Values(p, bounds, j - 1)) else 0.0
    {
      var turn, total;
      v, turn, total := NormalizedBar(p, bounds, i, v);
      equity[i], turnover[i] := total, turn;
      RecordLegs(v, i, legs);
    }
  }

  /** One bar of the loop, from the leg values of the bar before. */
  method NormalizedBar(p: Panel, bounds: seq<bool>, i: nat, before: seq<real>)
    returns (v: seq<real>, turn: real, total: real)
    requires Shaped(p) && |bounds| == p.n && 0 < i < p.n && before == Values(p, bounds, i - 1)
    ensures v == Values(p, bounds, i) && total == Equity(p, bounds, i)
    ensures turn == if bounds[i] then Turnover(p, before) else 0.0
  {
    hide Refunded, LegRet, Values, Moved, Turnover, Sum;
    ValuesNext(p, bounds, i);
    v, turn := before, 0.0;
    if bounds[i] {
      turn := Drifted(p, v);
      v := Refund(p, v);
    }
    v := DriftValues(p, v, i);
    assert v == Values(p, bounds, i);
    total := Total(v);
  }

  lemma ValuesStart(p: Panel, bounds: seq<bool>)
    requires Shaped(p) && |bounds| == p.n
    ensures Values(p, bounds, 0) == Scaled(Gross(p.w), 100.0)
  {}

  lemma ValuesNext(p: Panel, bounds: seq<bool>, i: nat)
    requires Shaped(p) && |bounds| == p.n && 0 < i < p.n
    ensures var v := Values(p, bounds, i - 1);
            forall l :: 0 <= l < |v| ==>
              Values(p, bounds, i)[l] == Moved((if bounds[i] then Refunded(p, v) else v)[l], LegRet(p, l, i))
  {}

  method DriftValues(p: Panel, x: seq<real>, i: nat) returns (v: seq<real>)
    requires Shaped(p) && i < p.n && |x| == |p.w|
    ensures |v| == |x| && forall l :: 0 <= l < |x| ==> v[l] == Moved(x[l], LegRet(p, l, i))
  {
    hide Moved;
    v := x;
    for l := 0 to |x|
      invariant |v| == |x|
      invariant forall m :: 0 <= m < |x| ==> v[m] == if m < l then Moved(x[m], LegRet(p, m, i)) else x[m]
    {
      HeldFlat(v[l]);
      assert -0.0 == 0.0;
      if p.rets[l][i].Some? {
        var r := p.rets[l][i].value;
        v := v[l := if p.w[l] >= 0.0 then Moved(v[l], r) else Moved(v[l], -r)];
      }
    }
  }

  // ----- Conservation ------------------------------------------------------

  /** The gross weights of the living legs, with 0 for the dead ones. */
  function Living(p: Panel, v: seq<real>): (w: seq<real>)
    requires |v| == |p.w|
    ensures |w| == |v|
    ensures forall l :: 0 <= l < |v| ==> w[l] == if Dead(p, v, l) then 0.0 else AbsReal(p.w[l])
  {
    seq(|v|, l requires 0 <= l < |v| => if Dead(p, v, l) then 0.0 else AbsReal(p.w[l]))
  }

  lemma {:induction false} LivingSum(p: Panel, v: seq<real>, k: nat)
    requires k <= |v| == |p.w|
    ensures Sum(Living(p, v), k) == AliveWeight(p, v, k)
  {
    if k > 0 {
      LivingSum(p, v, k - 1);
    }
  }

  /** The capital behind one unit of living weight. */
  function PerWeight(t: real, a: real): real
    requires a != 0.0
  {
    t / a
  }

  lemma ShareIs(w: real, a: real, t: real)
    requires a != 0.0
    ensures w / a * t == w * PerWeight(t, a)
  {}

  /** What living weight w gets. */
  function Allotted(w: real, t: real, a: real): real
    requires a != 0.0
  {
    w * PerWeight(t, a)
  }

  lemma AllAllotted(t: real, a: real)
    requires a != 0.0
    ensures Allotted(a, t, a) == t
  {}

  lemma FundedIs(p: Panel, v: seq<real>, l: nat)
    requires l < |v| == |p.w| && AliveWeight(p, v, |v|) > 0.0
    ensures Funded(p, v, l) == Scaled(Living(p, v), PerWeight(Sum(v, |v|), AliveWeight(p, v, |v|)))[l]
  {
    hide Sum, AliveWeight, AbsReal, PerWeight, Living, Scaled;
    ShareIs(AbsReal(p.w[l]), AliveWeight(p, v, |v|), Sum(v, |v|));
  }

  lemma RefundedIs(p: Panel, v: seq<real>)
    requires |v| == |p.w| && Sum(v, |v|) > 0.0 && AliveWeight(p, v, |v|) > 0.0
    ensures Refunded(p, v) == Scaled(Living(p, v), PerWeight(Sum(v, |v|), AliveWeight(p, v, |v|)))
  {
    hide Sum, AliveWeight, AbsReal, PerWeight, Living, Scaled, Funded;
    forall l | 0 <= l < |v|
      ensures Refunded(p, v)[l] == Scaled(Living(p, v), PerWeight(Sum(v, |v|), AliveWeight(p, v, |v|)))[l]
    {
      FundedIs(p, v, l);
    }
  }

  lemma RefundedSum(p: Panel, v: seq<real>)
    requires |v| == |p.w| && Sum(v, |v|) > 0.0 && AliveWeight(p, v, |v|) > 0.0
    ensures Sum(Refunded(p, v), |v|) ==
            Allotted(Sum(Living(p, v), |v|), Sum(v, |v|), AliveWeight(p, v, |v|))
  {
    hide Refunded, Sum, AliveWeight, Living, Scaled, PerWeight;
    RefundedIs(p, v);
    ScaledSum(Living(p, v), PerWeight(Sum(v, |v|), AliveWeight(p, v, |v|)), |v|);
  }

  lemma RefundedTotal(p: Panel, v: seq<real>)
    requires |v| == |p.w| && Sum(v, |v|) > 0.0 && AliveWeight(p, v, |v|) > 0.0
    ensures Sum(Refunded(p, v), |v|) == Sum(v, |v|)
  {
    hide Refunded, Sum, AliveWeight, Living, Allotted;
    RefundedSum(p, v);
    LivingSum(p, v, |v|);
    AllAllotted(Sum(v, |v|), AliveWeight(p, v, |v|));
  }

  /** A boundary redistributes the capital and neither adds nor loses any. */
  lemma RefundConserves(p: Panel, v: seq<real>)
    requires |v| == |p.w|
    ensures Sum(Refunded(p, v), |v|) == Sum(v, |v|)
  {
    hide Sum, AliveWeight, Living, Funded;
    if Sum(v, |v|) > 0.0 && AliveWeight(p, v, |v|) > 0.0 {
      RefundedTotal(p, v);
    }
  }

  /** A long leg that reaches 0 stays 0 on every later bar, boundaries included. */
  lemma {:induction false} DeadStaysDead(p: Panel, bounds: seq<bool>, l: nat, i: nat, j: nat)
    requires Shaped(p) && |bounds| == p.n && i <= j < p.n && l < |p.w|
    requires p.w[l] >= 0.0 && Values(p, bounds, i)[l] == 0.0
    ensures Values(p, bounds, j)[l] == 0.0
  {
    if i < j {
      DeadStaysDead(p, bounds, l, i, j - 1);
      assert Refunded(p, Values(p, bounds, j - 1))[l] == 0.0;
      assert Moved(0.0, LegRet(p, l, j)) == 0.0;
    }
  }

  // ----- Against the daily kernel ------------------------------------------

  /** No leg with a positive weight has died. */
  predicate NoneDead(p: Panel, v: seq<real>)
    requires |v| == |p.w|
  {
    forall l :: 0 <= l < |v| && p.w[l] > 0.0 ==> v[l] != 0.0
  }

  lemma {:induction false} AliveIsGross(p: Panel, v: seq<real>, k: nat)
    requires k <= |v| == |p.w| && NoneDead(p, v)
    ensures AliveWeight(p, v, k) == Sum(Gross(p.w), k)
  {
    if k > 0 {
      AliveIsGross(p, v, k - 1);
    }
  }

  lemma RestoredLeg(w: real, c: real, r: real, x: real, s: real)
    requires x == AbsReal(w) * c && s == if w >= 0.0 then r else -r
    ensures Moved(x, s) == c * (AbsReal(w) + Gain(w, r))
  {
    if w >= 0.0 {
      assert (w * c) * (1.0 + r) == c * (w + w * r);
    } else {
      assert ((-w) * c) * (1.0 - r) == c * (-w + w * r);
    }
  }

  /** What one unit of capital per gross weight is worth after bar i, leg by leg. */
  function Units(p: Panel, i: nat): (u: seq<real>)
    requires Shaped(p) && i < p.n
    ensures |u| == |p.w|
    ensures forall l :: 0 <= l < |p.w| ==> u[l] == AbsReal(p.w[l]) + Gain(p.w[l], Ret(p, l, i))
  {
    seq(|p.w|, l requires 0 <= l < |p.w| => AbsReal(p.w[l]) + Gain(p.w[l], Ret(p, l, i)))
  }

  lemma {:induction false} UnitsSum(p: Panel, i: nat, k: nat)
    requires Shaped(p) && i < p.n && k <= |p.w|
    ensures Sum(Units(p, i), k) == Sum(Gross(p.w), k) + Earned(p, p.w, i, k)
  {
    hide Gain, AbsReal, Ret;
    if k > 0 {
      UnitsSum(p, i, k - 1);
    }
  }

  lemma RestoredAt(p: Panel, x: real, c: real, i: nat, l: nat)
    requires Shaped(p) && i < p.n && l < |p.w| && x == AbsReal(p.w[l]) * c
    ensures Moved(x, LegRet(p, l, i)) == c * Units(p, i)[l]
  {
    hide Moved, Gain, Ret, AbsReal;
    RestoredLeg(p.w[l], c, Ret(p, l, i), x, LegRet(p, l, i));
  }

  /** The drift of legs funded at their gross weight of c. */
  lemma RestoredDrift(p: Panel, x: seq<real>, y: seq<real>, c: real, i: nat)
    requires Shaped(p) && i < p.n && |x| == |y| == |p.w|
    requires forall l :: 0 <= l < |x| ==> x[l] == AbsReal(p.w[l]) * c && y[l] == Moved(x[l], LegRet(p, l, i))
    ensures Sum(y, |y|) == (Sum(Gross(p.w), |y|) + Earned(p, p.w, i, |y|)) * c
  {
    hide Moved, Gain, Ret, AbsReal, Earned, Gross, Sum, LegRet, Units;
    forall l | 0 <= l < |x| ensures y[l] == Scaled(Units(p, i), c)[l] {
      RestoredAt(p, x[l], c, i, l);
    }
    assert y == Scaled(Units(p, i), c);
    ScaledSum(Units(p, i), c, |y|);
    UnitsSum(p, i, |y|);
  }

  /** With a boundary at every bar, as long as there is capital and no long leg is
      dead, the normalized kernel is the daily one, long or short. */
  lemma {:induction false} NormalizedEveryBar(p: Panel, bounds: seq<bool>, i: nat)
    requires Shaped(p) && |bounds| == p.n && i < p.n && Sum(Gross(p.w), |p.w|) == 1.0
    requires forall j :: 1 <= j <= i ==> bounds[j]
    requires forall j :: 0 <= j < i ==>
               NoneDead(p, Values(p, bounds, j)) && Sum(Values(p, bounds, j), |p.w|) > 0.0
    ensures Sum(Values(p, bounds, i), |p.w|) == Daily(p, i)
    ensures Equity(p, bounds, i) == Daily(p, i)
  {
    hide Moved, LegRet, Values, Refunded, Gross, Earned, Sum;
    if i == 0 {
      InitialTotal(p, bounds);
    } else {
      NormalizedEveryBar(p, bounds, i - 1);
      var v := Values(p, bounds, i - 1);
      RefundedRestores(p, v);
      ValuesNext(p, bounds, i);
      RestoredDrift(p, Refunded(p, v), Values(p, bounds, i), Sum(v, |v|), i);
      MovedBy(Sum(v, |v|), Earned(p, p.w, i, |p.w|));
      DistributeOne(Sum(v, |v|), Earned(p, p.w, i, |p.w|));
    }
  }

  lemma DistributeOne(c: real, e: real)
    ensures c * (1.0 + e) == c + c * e
  {}

  lemma RestoredValue(p: Panel, v: seq<real>, l: nat)
    requires l < |v| == |p.w| && NoneDead(p, v) && AliveWeight(p, v, |v|) == 1.0
    ensures Funded(p, v, l) == AbsReal(p.w[l]) * Sum(v, |v|)
  {
    hide Sum, AliveWeight;
    if Dead(p, v, l) {
      assert AbsReal(p.w[l]) == 0.0;
    }
  }

  /** With every long leg alive a boundary restores the gross weights. */
  lemma RefundedRestores(p: Panel, v: seq<real>)
    requires |v| == |p.w| && Sum(Gross(p.w), |p.w|) == 1.0 && NoneDead(p, v) && Sum(v, |v|) > 0.0
    ensures forall l :: 0 <= l < |v| ==> Refunded(p, v)[l] == AbsReal(p.w[l]) * Sum(v, |v|)
  {
    hide Sum, Funded, AliveWeight;
    AliveIsGross(p, v, |v|);
    forall l | 0 <= l < |v| ensures Refunded(p, v)[l] == AbsReal(p.w[l]) * Sum(v, |v|) {
      RestoredValue(p, v, l);
    }
  }

  // ----- Against buy-and-hold ----------------------------------------------

  lemma {:induction false} LongLeg(p: Panel, bounds: seq<bool>, l: nat, i: nat)
    requires Shaped(p) && |bounds| == p.n && i < p.n && l < |p.w| && p.w[l] >= 0.0
    requires forall j :: 1 <= j <= i ==> !bounds[j]
    ensures Values(p, bounds, i)[l] == LegValue(p, l, i)
  {
    hide Moved;
    if i > 0 {
      LongLeg(p, bounds, l, i - 1);
    }
  }

  lemma {:induction false} LongTotal(p: Panel, bounds: seq<bool>, i: nat, k: nat)
    requires Shaped(p) && |bounds| == p.n && i < p.n && k <= |p.w|
    requires forall l :: 0 <= l < |p.w| ==> p.w[l] >= 0.0
    requires forall j :: 1 <= j <= i ==> !bounds[j]
    ensures Sum(Values(p, bounds, i), k) == HoldTotal(p, i, k)
  {
    hide Values, LegValue;
    if k > 0 {
      LongTotal(p, bounds, i, k - 1);
      LongLeg(p, bounds, k - 1, i);
    }
  }

  /** Without a boundary a long-only normalized book is buy-and-hold. */
  lemma NormalizedNoBoundary(p: Panel, bounds: seq<bool>, i: nat)
    requires Shaped(p) && |bounds| == p.n && i < p.n && Sum(Gross(p.w), |p.w|) == 1.0
    requires forall l :: 0 <= l < |p.w| ==> p.w[l] >= 0.0
    requires forall j :: 1 <= j <= i ==> !bounds[j]
    ensures Equity(p, bounds, i) == BuyAndHold(p, i, true)
  {
    hide Values, HoldTotal;
    LongTotal(p, bounds, i, |p.w|);
    if i == 0 {
      InitialTotal(p, bounds);
    }
  }

  lemma InitialTotal(p: Panel, bounds: seq<bool>)
    requires Shaped(p) && |bounds| == p.n && Sum(Gross(p.w), |p.w|) == 1.0
    ensures Sum(Values(p, bounds, 0), |p.w|) == 100.0
  {
    ScaledSum(Gross(p.w), 100.0, |p.w|);
  }

  // ----- Exactly when ------------------------------------------------------

  /** No interior boundary. */
  function Off(n: nat): (b: seq<bool>)
    ensures |b| == n && forall i :: 0 <= i < n ==> !b[i]
  {
    seq(n, _ => false)
  }

  /** Over one bar a short leg, too, is worth what it is under buy-and-hold. */
  lemma FirstBarLeg(p: Panel, l: nat, i: nat)
    requires Shaped(p) && i < p.n && i <= 1 && l < |p.w|
    ensures Values(p, Off(p.n), i)[l] == LegValue(p, l, i)
  {
    if p.w[l] < 0.0 && i == 1 {
      var x, r := AbsReal(p.w[l]) * 100.0, Ret(p, l, 1);
      assert Values(p, Off(p.n), 0)[l] == x && Grown(p, l, x, 0) == x;
      assert Moved(x, -r) == 2.0 * x - Moved(x, r);
    } else if p.w[l] >= 0.0 {
      LongLeg(p, Off(p.n), l, i);
    }
  }

  lemma {:induction false} FirstBarTotal(p: Panel, i: nat, k: nat)
    requires Shaped(p) && i < p.n && i <= 1 && k <= |p.w|
    ensures Sum(Values(p, Off(p.n), i), k) == HoldTotal(p, i, k)
  {
    hide Values, LegValue;
    if k > 0 {
      FirstBarTotal(p, i, k - 1);
      FirstBarLeg(p, k - 1, i);
    }
  }

  /** Leg s gains a half on each of the first two bars; nothing else ever moves. */
  function TwoUpBars(w: seq<real>, s: nat, n: nat): (p: Panel)
    requires n > 0
    ensures Shaped(p) && p.w == w && p.n == n
    ensures forall l, i :: 0 <= l < |w| && 0 <= i < n ==> Ret(p, l, i) == if l == s && 1 <= i <= 2 then 0.5 else 0.0
  {
    Panel(w, seq(|w|, l requires 0 <= l < |w| =>
                   seq(n, i requires 0 <= i < n => if l == s && 1 <= i <= 2 then Some(0.5) else None)), n)
  }

  lemma TwoUpBarsLeg(w: seq<real>, s: nat, n: nat, l: nat)
    requires n >= 3 && s < |w| && w[s] < 0.0 && l < |w|
    ensures var p := TwoUpBars(w, s, n);
            Values(p, Off(n), 2)[l] - LegValue(p, l, 2) == if l == s then 50.0 * AbsReal(w[s]) else 0.0
  {
    hide TwoUpBars;
    var p, x := TwoUpBars(w, s, n), AbsReal(w[l]) * 100.0;
    assert Values(p, Off(n), 0)[l] == x && Grown(p, l, x, 0) == x;
    if l == s {
      assert Values(p, Off(n), 1)[l] == x * 0.5 && Grown(p, l, x, 1) == x * 1.5;
    } else {
      assert LegRet(p, l, 1) == LegRet(p, l, 2) == 0.0;
      assert Values(p, Off(n), 1)[l] == x && Grown(p, l, x, 1) == x;
    }
  }

  lemma {:induction false} TwoUpBarsTotal(w: seq<real>, s: nat, n: nat, k: nat)
    requires n >= 3 && s < |w| && w[s] < 0.0 && k <= |w|
    ensures var p := TwoUpBars(w, s, n);
            Sum(Values(p, Off(n), 2), k) - HoldTotal(p, 2, k) == if s < k then 50.0 * AbsReal(w[s]) else 0.0
  {
    hide Values, LegValue, TwoUpBars, AbsReal;
    if k > 0 {
      TwoUpBarsTotal(w, s, n, k - 1);
      TwoUpBarsLeg(w, s, n, k - 1);
    }
  }

  /** Whatever the returns, the normalized kernel without a boundary is
      buy-and-hold. */
  ghost predicate AlwaysHold(w: seq<real>, n: nat) {
    forall p: Panel, i: nat :: Shaped(p) && p.w == w && p.n == n && i < n ==>
      Equity(p, Off(n), i) == BuyAndHold(p, i, true)
  }

  /** For given weights that holds exactly when no leg is short, or there are not
      two bars to compound. */
  lemma NormalizedIsHoldIff(w: seq<real>, n: nat)
    requires Sum(Gross(w), |w|) == 1.0
    ensures AlwaysHold(w, n) <==> n <= 2 || forall l :: 0 <= l < |w| ==> w[l] >= 0.0
  {
    hide Values, HoldTotal, Sum, Gross, TwoUpBars;
    forall p: Panel, i: nat | (n <= 2 || forall l :: 0 <= l < |w| ==> w[l] >= 0.0)
                              && Shaped(p) && p.w == w && p.n == n && i < n
      ensures Equity(p, Off(n), i) == BuyAndHold(p, i, true)
    {
      if n <= 2 {
        FirstBarTotal(p, i, |w|);
        InitialTotal(p, Off(n));
      } else {
        NormalizedNoBoundary(p, Off(n), i);
      }
    }
    if n > 2 && exists l :: 0 <= l < |w| && w[l] < 0.0 {
      var s :| 0 <= s < |w| && w[s] < 0.0;
      TwoUpBarsTotal(w, s, n, |w|);
      var p := TwoUpBars(w, s, n);
      assert Equity(p, Off(n), 2) != BuyAndHold(p, 2, true);
    }
  }

  /** The simplest short book: two up-bars of a half leave a quarter of the capital
      here and a quarter of it owed under buy-and-hold. */
  lemma ShortBookDiffers()
    ensures var p := Panel([-1.0], [[None, Some(0.5), Some(0.5)]], 3);
            Equity(p, [true, false, false], 2) == 25.0 && BuyAndHold(p, 2, true) == -25.0
  {
    var p := Panel([-1.0], [[None, Some(0.5), Some(0.5)]], 3);
    var off := [true, false, false];
    assert Values(p, off, 0) == [100.0];
    assert Values(p, off, 1) == [50.0];
    assert Values(p, off, 2) == [25.0];
    assert Sum([25.0], 0) == 0.0;
    assert Grown(p, 0, 100.0, 1) == 150.0;
    assert Grown(p, 0, 100.0, 2) == 225.0;
    assert HoldTotal(p, 2, 0) == 0.0;
  }
}
