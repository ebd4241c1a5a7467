/** The streaming condition detectors, each equal to a declarative statement about
    the bars seen so far. */
module Detectors {
  import opened Wrappers

  type Num = Option<real>

  /** How many bars of lo..hi are set. */
  function Count(b: seq<bool>, lo: nat, hi: nat): (n: nat)
    requires hi <= |b|
    ensures n <= MaxInt(hi - lo, 0)
  {
    if hi <= lo then 0 else Count(b, lo, hi - 1) + if b[hi - 1] then 1 else 0
  }

  lemma {:induction false} CountSplits(b: seq<bool>, lo: nat, mid: nat, hi: nat)
    requires lo <= mid <= hi <= |b|
    ensures Count(b, lo, hi) == Count(b, lo, mid) + Count(b, mid, hi)
  {
    if mid < hi {
      CountSplits(b, lo, mid, hi - 1);
    }
  }

  lemma {:induction false} CountFull(b: seq<bool>, lo: nat, hi: nat)
    requires lo <= hi <= |b|
    ensures Count(b, lo, hi) == hi - lo <==> forall u :: lo <= u < hi ==> b[u]
  {
    if lo < hi {
      CountFull(b, lo, hi - 1);
    }
  }

  // ----- Crossings since the last reset ------------------------------------

  /** The last bar up to t on which the reset fired, or bar 0. */
  function LastReset(resets: seq<bool>, t: nat): (r: nat)
    requires t < |resets|
    ensures r <= t && (forall u :: r < u <= t ==> !resets[u]) && (r > 0 ==> resets[r])
  {
    if t == 0 || resets[t] then t else LastReset(resets, t - 1)
  }

  /** Fires on exactly the crossings whose number since the last reset, a reset on
      the same bar included, is a multiple of the count. */
  method CrossSinceReset(pulses: seq<bool>, resets: seq<bool>, count: int) returns (out: array<bool>)
    requires |resets| == |pulses|
    ensures out.Length == |pulses|
    ensures forall t :: 0 <= t < |pulses| ==>
              (out[t] <==> pulses[t] && Phase(Count(pulses, LastReset(resets, t), t + 1), MaxInt(1, count)) == 0)
  {
    hide Phase;
    var n := MaxInt(1, count);
    ZeroPhase(n);
    out := new bool[|pulses|](_ => false);
    var seen := 0;
    for t := 0 to |pulses|
      invariant 0 <= seen < n
      invariant t > 0 ==> seen == Phase(Count(pulses, LastReset(resets, t - 1), t), n)
      invariant t == 0 ==> seen == 0
      invariant forall u :: t <= u < |pulses| ==> !out[u]
      invariant forall u :: 0 <= u < t ==>
                  (out[u] <==> pulses[u] && Phase(Count(pulses, LastReset(resets, u), u + 1), n) == 0)
    {
      if resets[t] {
        seen := 0;
      }
      ghost var before := Count(pulses, LastReset(resets, t), t);
      assert seen == Phase(before, n);
      if pulses[t] {
        NextPhase(before, n);
        seen := seen + 1;
        if seen >= n {
          out[t] := true;
          seen := 0;
        }
      }
    }
  }

  /** How far k crossings are into a ladder of n. */
  function Phase(k: nat, n: int): nat
    requires n >= 1
  {
    k % n
  }

  lemma ZeroPhase(n: int)
    requires n >= 1
    ensures Phase(0, n) == 0
  {}

  lemma NextPhase(a: nat, n: int)
    requires n >= 1
    ensures Phase(a + 1, n) == if Phase(a, n) + 1 == n then 0 else Phase(a, n) + 1
    ensures Phase(a, n) < n
  {
    var q, r := a / n, a % n;
    assert a == q * n + r;
    if r + 1 == n {
      assert a + 1 == (q + 1) * n;
      ModuloIs(a + 1, q + 1, 0, n);
    } else {
      ModuloIs(a + 1, q, r + 1, n);
    }
  }

  lemma ModuloIs(a: int, q: int, r: int, n: int)
    requires n >= 1 && a == q * n + r && 0 <= r < n
    ensures a % n == r
  {
    var k := a / n - q;
    assert k * n == r - a % n;
  }

  // ----- Prefix sums -------------------------------------------------------

  method Prefix(b: seq<bool>) returns (prefix: array<int>)
    ensures prefix.Length == |b| + 1
    ensures forall t :: 0 <= t <= |b| ==> prefix[t] == Count(b, 0, t)
  {
    prefix := new int[|b| + 1];
    prefix[0] := 0;
    for t := 0 to |b|
      invariant forall u :: 0 <= u <= t ==> prefix[u] == Count(b, 0, u)
    {
      prefix[t + 1] := prefix[t] + if b[t] then 1 else 0;
    }
  }

  /** Held for the trailing n bars: a full window, every bar of it true. */
  method ConsecutiveTrue(truth: seq<bool>, n: int) returns (out: seq<bool>)
    ensures |out| == |truth|
    ensures n <= 1 ==> out == truth
    ensures n > 1 ==> forall t :: 0 <= t < |truth| ==>
              (out[t] <==> t + 1 >= n && forall u :: t - n < u <= t ==> truth[u])
  {
    if n <= 1 || |truth| == 0 {
      return truth;
    }
    var prefix := Prefix(truth);
    out := seq(|truth|, t requires 0 <= t < |truth| reads prefix
                            requires prefix.Length == |truth| + 1 =>
      t - n + 1 >= 0 && prefix[t + 1] - prefix[MaxInt(t - n + 1, 0)] == n);
    forall t | 0 <= t < |truth|
      ensures out[t] <==> t + 1 >= n && forall u :: t - n < u <= t ==> truth[u]
    {
      if t + 1 >= n {
        CountSplits(truth, 0, t - n + 1, t + 1);
        CountFull(truth, t - n + 1, t + 1);
      }
    }
  }

  /** At least `count` crossings in the trailing window, whatever the current bar
      is. */
  method CrossCount(pulses: seq<bool>, count: int, window: int) returns (out: seq<bool>)
    requires window >= 1
    ensures |out| == |pulses|
    ensures forall t :: 0 <= t < |pulses| ==>
              (out[t] <==> Count(pulses, MaxInt(0, t - window + 1), t + 1) >= count)
  {
    var prefix := Prefix(pulses);
    out := seq(|pulses|, t requires 0 <= t < |pulses| reads prefix
                             requires prefix.Length == |pulses| + 1 =>
      prefix[t + 1] - prefix[MaxInt(0, t - window + 1)] >= count);
    forall t | 0 <= t < |pulses|
      ensures out[t] <==> Count(pulses, MaxInt(0, t - window + 1), t + 1) >= count
    {
      CountSplits(pulses, 0, MaxInt(0, t - window + 1), t + 1);
    }
  }

  // ----- Rising edges across gaps ------------------------------------------

  /** A rising edge: up here, and down or absent just before. */
  predicate Rises(level: seq<bool>, k: nat)
    requires k < |level|
  {
    level[k] && (k == 0 || !level[k - 1])
  }

  /** The series with its gap bars deleted. */
  function Deleted(active: seq<bool>, gap: seq<bool>): (r: seq<bool>)
    requires |active| == |gap|
    ensures |r| == Count(Negated(gap), 0, |gap|)
  {
    if active == [] then []
    else
      var n := |active| - 1;
      CountPrefix(Negated(gap), Negated(gap[..n]), n);
      Deleted(active[..n], gap[..n]) + if gap[n] then [] else [active[n]]
  }

  function Negated(gap: seq<bool>): (r: seq<bool>)
    ensures |r| == |gap| && forall t :: 0 <= t < |gap| ==> r[t] == !gap[t]
  {
    seq(|gap|, t requires 0 <= t < |gap| => !gap[t])
  }

  lemma {:induction false} CountPrefix(a: seq<bool>, b: seq<bool>, n: nat)
    requires n <= |a| && n <= |b| && a[..n] == b[..n]
    ensures Count(a, 0, n) == Count(b, 0, n)
  {
    if n > 0 {
      assert a[..n][n - 1] == b[..n][n - 1];
      assert a[..n - 1] == a[..n][..n - 1] && b[..n - 1] == b[..n][..n - 1];
      CountPrefix(a, b, n - 1);
    }
  }

  /** Where bar t lands once the gaps are gone. */
  function Rank(gap: seq<bool>, t: nat): nat
    requires t <= |gap|
  {
    Count(Negated(gap), 0, t)
  }

  lemma {:induction false} DeletedAt(active: seq<bool>, gap: seq<bool>, t: nat)
    requires |active| == |gap| && t < |gap| && !gap[t]
    ensures Rank(gap, t) < |Deleted(active, gap)| && Deleted(active, gap)[Rank(gap, t)] == active[t]
  {
    hide Count;
    var n := |active| - 1;
    CountPrefix(Negated(gap), Negated(gap[..n]), n);
    CountPrefix(Negated(gap), Negated(gap[..n]), t);
    if t < n {
      DeletedAt(active[..n], gap[..n], t);
    }
  }

  lemma RankStart(gap: seq<bool>)
    ensures Rank(gap, 0) == 0
  {}

  lemma RankNext(gap: seq<bool>, t: nat)
    requires t < |gap|
    ensures Rank(gap, t + 1) == Rank(gap, t) + if gap[t] then 0 else 1
  {}

  /** Bar t is no gap and a rising edge of the series without gaps. */
  predicate RisesAcross(active: seq<bool>, gap: seq<bool>, t: nat)
    requires |active| == |gap| && t < |gap|
  {
    !gap[t] && (DeletedAt(active, gap, t); Rises(Deleted(active, gap), Rank(gap, t)))
  }

  /** Plain rising edges without a mask; with one, the rising edges of the series
      without its gap bars, put back on the bars they came from. */
  method ToPulse(active: seq<bool>, mask: Option<seq<bool>>) returns (pulsed: array<bool>)
    requires mask.Some? ==> |mask.value| == |active|
    ensures pulsed.Length == |active|
    ensures mask.None? ==> forall t :: 0 <= t < |active| ==> (pulsed[t] <==> Rises(active, t))
    ensures mask.Some? ==> forall t :: 0 <= t < |active| ==>
              (pulsed[t] <==> RisesAcross(active, mask.value, t))
  {
    pulsed := new bool[|active|](_ => false);
    if mask.None? {
      for t := 0 to |active|
        invariant forall u :: 0 <= u < t ==> (pulsed[u] <==> Rises(active, u))
      {
        pulsed[t] := active[t] && (t == 0 || !active[t - 1]);
      }
      return;
    }
    PulseAcross(active, mask.value, pulsed);
  }

  /** Carry the last level across the gaps. */
  method PulseAcross(active: seq<bool>, gap: seq<bool>, pulsed: array<bool>)
    requires |gap| == |active| == pulsed.Length
    requires forall t :: 0 <= t < |active| ==> !pulsed[t]
    modifies pulsed
    ensures forall t :: 0 <= t < |active| ==> (pulsed[t] <==> RisesAcross(active, gap, t))
  {
    hide Deleted, Rank;
    ghost var d := Deleted(active, gap);
    var prev := false;
    RankStart(gap);
    for t := 0 to |active|
      invariant Rank(gap, t) <= |d|
      invariant prev == (Rank(gap, t) > 0 && d[Rank(gap, t) - 1])
      invariant forall u :: t <= u < |active| ==> !pulsed[u]
      invariant forall u :: 0 <= u < t ==> (pulsed[u] <==> RisesAcross(active, gap, u))
    {
      RankNext(gap, t);
      if !gap[t] {
        DeletedAt(active, gap, t);
        var cur := active[t];
        pulsed[t] := cur && !prev;
        prev := cur;
      }
    }
  }

  // ----- Two-threshold episodes --------------------------------------------

  /** The three operands of an episode condition. `up`: rises past `enter`, then
      falls below `exit`; otherwise the mirror image. */
  datatype Episode = Episode(x: seq<Num>, enter: seq<Num>, exit: seq<Num>, up: bool)

  predicate Sized(e: Episode) {
    |e.x| == |e.enter| == |e.exit|
  }

  predicate Valid(e: Episode, t: nat)
    requires Sized(e) && t < |e.x|
  {
    e.x[t].Some? && e.enter[t].Some? && e.exit[t].Some?
  }

  /** Bar t is past the enter threshold. */
  predicate Arms(e: Episode, t: nat)
    requires Sized(e) && t < |e.x|
  {
    Valid(e, t) && if e.up then e.x[t].value > e.enter[t].value else e.x[t].value < e.enter[t].value
  }

  /** Bar t is back past the exit threshold. */
  predicate Returns(e: Episode, t: nat)
    requires Sized(e) && t < |e.x|
  {
    Valid(e, t) && if e.up then e.x[t].value < e.exit[t].value else e.x[t].value > e.exit[t].value
  }

  /** The latch at the start of bar t. */
  predicate Armed(e: Episode, t: nat)
    requires Sized(e) && t <= |e.x|
  {
    t > 0 && if Armed(e, t - 1) && Returns(e, t - 1) then false else Arms(e, t - 1) || Armed(e, t - 1)
  }

  predicate EpisodeFires(e: Episode, t: nat)
    requires Sized(e) && t < |e.x|
  {
    Armed(e, t) && Returns(e, t)
  }

  method HysteresisEpisode(e: Episode) returns (out: array<bool>)
    requires Sized(e)
    ensures out.Length == |e.x|
    ensures forall t :: 0 <= t < |e.x| ==> (out[t] <==> EpisodeFires(e, t))
  {
    out := new bool[|e.x|](_ => false);
    var armed := false;
    for t := 0 to |e.x|
      invariant armed == Armed(e, t)
      invariant forall u :: t <= u < |e.x| ==> !out[u]
      invariant forall u :: 0 <= u < t ==> (out[u] <==> EpisodeFires(e, u))
    {
      if e.x[t].None? || e.enter[t].None? || e.exit[t].None? {
        continue;
      }
      var x, en, ex := e.x[t].value, e.enter[t].value, e.exit[t].value;
      if e.up {
        if armed && x < ex {
          out[t] := true;
          armed := false;
        } else if x > en {
          armed := true;
        }
      } else {
        if armed && x > ex {
          out[t] := true;
          armed := false;
        } else if x < en {
          armed := true;
        }
      }
    }
  }

  /** Bar s is past the enter threshold, and no bar since is back past `exit`. */
  ghost predicate Opener(e: Episode, s: nat, t: nat)
    requires Sized(e) && s < t <= |e.x|
  {
    Arms(e, s) && forall u :: s < u < t ==> !Returns(e, u)
  }

  ghost predicate OpenEpisode(e: Episode, t: nat)
    requires Sized(e) && t <= |e.x|
  {
    exists s :: 0 <= s < t && Opener(e, s, t)
  }

  /** An episode whose opening bar did not itself complete an older one. */
  ghost predicate LiveEpisode(e: Episode, t: nat)
    requires Sized(e) && t <= |e.x|
  {
    exists s :: 0 <= s < t && Opener(e, s, t) && !EpisodeFires(e, s)
  }

  lemma {:induction false} ArmedIff(e: Episode, t: nat)
    requires Sized(e) && t <= |e.x|
    ensures Armed(e, t) <==> LiveEpisode(e, t)
  {
    if t > 0 {
      ArmedIff(e, t - 1);
      if Arms(e, t - 1) && !EpisodeFires(e, t - 1) {
        assert Opener(e, t - 1, t);
      } else if Armed(e, t) {
        var s :| 0 <= s < t - 1 && Opener(e, s, t - 1) && !EpisodeFires(e, s);
        assert Opener(e, s, t);
      }
      if LiveEpisode(e, t) && !(Arms(e, t - 1) && !EpisodeFires(e, t - 1)) {
        var s :| 0 <= s < t && Opener(e, s, t) && !EpisodeFires(e, s);
        assert s < t - 1 && Opener(e, s, t - 1);
      }
    }
  }

  /** Whatever the thresholds, an episode fires at exactly the first valid bar past
      `exit` after a bar past `enter` that did not fire. */
  lemma EpisodeFiresIff(e: Episode, t: nat)
    requires Sized(e) && t < |e.x|
    ensures EpisodeFires(e, t) <==> Returns(e, t) && LiveEpisode(e, t)
  {
    ArmedIff(e, t);
  }

  /** The plain reading: an episode fires at the first valid bar past `exit` after a
      bar past `enter`. */
  ghost predicate PlainReading(e: Episode)
    requires Sized(e)
  {
    forall t :: 0 <= t < |e.x| ==> (EpisodeFires(e, t) <==> Returns(e, t) && OpenEpisode(e, t))
  }

  /** Both thresholds are there on bar t. */
  predicate Present(enter: seq<Num>, exit: seq<Num>, t: nat)
    requires t < |enter| == |exit|
  {
    enter[t].Some? && exit[t].Some?
  }

  /** The thresholds of bar t overlap: one value can be past both. */
  predicate Crossed(enter: seq<Num>, exit: seq<Num>, up: bool, t: nat)
    requires t < |enter| == |exit|
  {
    Present(enter, exit, t) && if up then enter[t].value < exit[t].value else enter[t].value > exit[t].value
  }

  /** Bar u is crossed, with thresholds present on a bar before and on one after. */
  predicate Straddled(enter: seq<Num>, exit: seq<Num>, up: bool, a: nat, u: nat, t: nat)
    requires a < u < t < |enter| == |exit|
  {
    Present(enter, exit, a) && Crossed(enter, exit, up, u) && Present(enter, exit, t)
  }

  /** Without a straddled crossing the opener of bar t has not fired. */
  lemma NoneStraddled(e: Episode, t: nat)
    requires Sized(e) && t < |e.x| && Returns(e, t) && OpenEpisode(e, t)
    requires forall a, u :: 0 <= a < u < t ==> !Straddled(e.enter, e.exit, e.up, a, u, t)
    ensures LiveEpisode(e, t)
  {
    var s :| 0 <= s < t && Opener(e, s, t);
    if EpisodeFires(e, s) {
      EpisodeFiresIff(e, s);
      var a :| 0 <= a < s && Opener(e, a, s);
      assert Straddled(e.enter, e.exit, e.up, a, s, t);
    }
  }

  /** An operand past `enter` on bar a, past both on bar u, past `exit` on bar t and
      missing everywhere else. */
  function Straddling(enter: seq<Num>, exit: seq<Num>, up: bool, a: nat, u: nat, t: nat): (e: Episode)
    requires a < u < t < |enter| == |exit| && Straddled(enter, exit, up, a, u, t)
    ensures Sized(e) && e.enter == enter && e.exit == exit && e.up == up
  {
    var d := if up then 1.0 else -1.0;
    Episode(seq(|enter|, b requires 0 <= b < |enter| =>
              if b == a then Some(enter[a].value + d)
              else if b == u then Some((enter[u].value + exit[u].value) / 2.0)
              else if b == t then Some(exit[t].value - d)
              else None),
            enter, exit, up)
  }

  /** There the fire on bar u uses up the only opener of bar t. */
  lemma StraddlingFails(enter: seq<Num>, exit: seq<Num>, up: bool, a: nat, u: nat, t: nat)
    requires a < u < t < |enter| == |exit| && Straddled(enter, exit, up, a, u, t)
    ensures !PlainReading(Straddling(enter, exit, up, a, u, t))
  {
    var e := Straddling(enter, exit, up, a, u, t);
    assert forall b :: 0 <= b < |e.x| && b != a && b != u && b != t ==> !Valid(e, b);
    assert Arms(e, a) && Arms(e, u) && Returns(e, u) && Returns(e, t);
    EpisodeFiresIff(e, a);
    EpisodeFiresIff(e, u);
    EpisodeFiresIff(e, t);
    assert !EpisodeFires(e, a);
    assert Opener(e, a, u) && EpisodeFires(e, u);
    assert Opener(e, u, t);
    assert !LiveEpisode(e, t);
    hide EpisodeFires, Returns, OpenEpisode;
    assert !(EpisodeFires(e, t) <==> Returns(e, t) && OpenEpisode(e, t));
  }

  /** For given thresholds and direction the plain reading holds of every operand
      series exactly when no bar with crossed thresholds lies between two bars on
      which both thresholds are present. */
  lemma PlainReadingIff(enter: seq<Num>, exit: seq<Num>, up: bool)
    requires |enter| == |exit|
    ensures (forall x: seq<Num> :: |x| == |enter| ==> PlainReading(Episode(x, enter, exit, up))) <==>
            (forall a, u, t :: 0 <= a < u < t < |enter| ==> !Straddled(enter, exit, up, a, u, t))
  {
    if forall a, u, t :: 0 <= a < u < t < |enter| ==> !Straddled(enter, exit, up, a, u, t) {
      forall x: seq<Num> | |x| == |enter| ensures PlainReading(Episode(x, enter, exit, up)) {
        UnstraddledIsPlain(Episode(x, enter, exit, up));
      }
    } else {
      var a, u, t :| 0 <= a < u < t < |enter| && Straddled(enter, exit, up, a, u, t);
      StraddlingFails(enter, exit, up, a, u, t);
      var x := Straddling(enter, exit, up, a, u, t).x;
      assert Straddling(enter, exit, up, a, u, t) == Episode(x, enter, exit, up);
    }
  }

  lemma UnstraddledIsPlain(e: Episode)
    requires Sized(e)
    requires forall a, u, t :: 0 <= a < u < t < |e.x| ==> !Straddled(e.enter, e.exit, e.up, a, u, t)
    ensures PlainReading(e)
  {
    forall t | 0 <= t < |e.x| ensures EpisodeFires(e, t) <==> Returns(e, t) && OpenEpisode(e, t) {
      EpisodeFiresIff(e, t);
      if Returns(e, t) && OpenEpisode(e, t) {
        NoneStraddled(e, t);
      }
    }
  }

  /** In particular with thresholds that do not cross on any bar. */
  lemma EpisodeExact(e: Episode, t: nat)
    requires Sized(e) && t < |e.x|
    requires forall u :: 0 <= u < |e.x| && Valid(e, u) ==>
               if e.up then e.exit[u].value <= e.enter[u].value else e.exit[u].value >= e.enter[u].value
    ensures EpisodeFires(e, t) <==> Returns(e, t) && OpenEpisode(e, t)
  {
    EpisodeFiresIff(e, t);
    if Returns(e, t) && OpenEpisode(e, t) {
      var s :| 0 <= s < t && Opener(e, s, t);
      assert !EpisodeFires(e, s);
    }
  }

  /** With crossed thresholds one bar can do both, and then it only fires: here
      bar 1 completes the episode bar 0 armed and arms none, so bar 2 is silent. */
  lemma CrossedThresholds()
    ensures var x := [Some(2.0), Some(2.0), Some(2.0)];
            var e := Episode(x, [Some(1.0), Some(1.0), Some(3.0)], [Some(0.0), Some(3.0), Some(3.0)], true);
            Sized(e) && Returns(e, 2) && OpenEpisode(e, 2) && !EpisodeFires(e, 2)
  {
    var x := [Some(2.0), Some(2.0), Some(2.0)];
    var e := Episode(x, [Some(1.0), Some(1.0), Some(3.0)], [Some(0.0), Some(3.0), Some(3.0)], true);
    assert !Armed(e, 0) && Arms(e, 0) && Armed(e, 1) && Returns(e, 1);
    assert Arms(e, 1) && Opener(e, 1, 2);
  }
}
