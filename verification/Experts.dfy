/**
 The feed-forward block, `MlpOrMoe::forward` in crates/lattice-engine/src/llama.rs.

 The mixture-of-experts branch groups the rows of a batch by expert, runs every expert once over
 its rows and adds the weighted results back.  The specification is per token: a row's output is
 the sum over its own top experts, in its own order, with no grouping.
 */
module Experts {
  import opened Integers
  import opened Vectors

  /** `router` gives a row's softmaxed routing weights; the networks themselves are arbitrary. */
  datatype Ffn =
    | Dense(f: Vec -> Vec)
    | Moe(used: nat, router: Vec -> seq<real>, experts: seq<Vec -> Vec>)
  {
    ghost predicate Valid() {
      Moe? ==> forall x :: IsRouting(router(x), |experts|)
    }
  }

  /** A softmax over the experts: one positive weight each. */
  predicate IsRouting(rw: seq<real>, experts: nat) {
    |rw| == experts && forall e | 0 <= e < |rw| :: rw[e] > 0.0
  }

  // ---------- Ranking experts ----------

  /** Inserts a larger index into a descending list, behind every index of the same weight. */
  function Insert(rw: seq<real>, sorted: seq<nat>, i: nat): seq<nat>
    requires i < |rw| && forall j | 0 <= j < |sorted| :: sorted[j] < |rw|
  {
    if sorted == [] || rw[sorted[|sorted| - 1]] >= rw[i] then sorted + [i]
    else Insert(rw, sorted[..|sorted| - 1], i) + [sorted[|sorted| - 1]]
  }

  /** Greater weight first, and the lower index first among equals. */
  predicate Ahead(rw: seq<real>, a: nat, b: nat)
    requires a < |rw| && b < |rw|
  {
    rw[a] > rw[b] || (rw[a] == rw[b] && a < b)
  }

  ghost predicate Descending(rw: seq<real>, s: seq<nat>) {
    && (forall j | 0 <= j < |s| :: s[j] < |rw|)
    && forall i, j | 0 <= i < j < |s| :: Ahead(rw, s[i], s[j])
  }

  lemma AppendKeepsOrder(rw: seq<real>, s: seq<nat>, last: nat)
    requires Descending(rw, s) && last < |rw|
    requires forall j | 0 <= j < |s| :: Ahead(rw, s[j], last)
    ensures Descending(rw, s + [last])
  {
  }

  lemma {:induction false} InsertKeepsOrder(rw: seq<real>, sorted: seq<nat>, i: nat)
    requires i < |rw| && Descending(rw, sorted)
    requires forall j | 0 <= j < |sorted| :: sorted[j] < i
    ensures Descending(rw, Insert(rw, sorted, i))
    ensures |Insert(rw, sorted, i)| == |sorted| + 1
    ensures forall e: nat :: e in Insert(rw, sorted, i) <==> e in sorted || e == i
  {
    if sorted == [] || rw[sorted[|sorted| - 1]] >= rw[i] {
      forall j | 0 <= j < |sorted|
        ensures Ahead(rw, sorted[j], i)
      {
        if j < |sorted| - 1 {
          assert Ahead(rw, sorted[j], sorted[|sorted| - 1]);
        }
      }
      AppendKeepsOrder(rw, sorted, i);
    } else {
      var init, last := sorted[..|sorted| - 1], sorted[|sorted| - 1];
      InsertKeepsOrder(rw, init, i);
      var rest := Insert(rw, init, i);
      assert sorted == init + [last];
      forall j | 0 <= j < |rest|
        ensures Ahead(rw, rest[j], last)
      {
        assert rest[j] in rest;
        if rest[j] != i {
          var k :| 0 <= k < |init| && init[k] == rest[j];
          assert Ahead(rw, sorted[k], sorted[|sorted| - 1]);
        }
      }
      AppendKeepsOrder(rw, rest, last);
    }
  }

  /** Every index below `n` once, in descending order of weight. */
  ghost predicate Ranks(rw: seq<real>, s: seq<nat>, n: nat) {
    |s| == n && Descending(rw, s) && forall e: nat :: e in s <==> e < n
  }

  lemma RanksOneMore(rw: seq<real>, s: seq<nat>, n: nat, more: nat)
    requires Ranks(rw, s, n) && more == n + 1 <= |rw|
    ensures Ranks(rw, Insert(rw, s, n), more)
  {
    assert forall j | 0 <= j < |s| :: s[j] in s;
    InsertKeepsOrder(rw, s, n);
  }

  /** The stable descending sort of the expert indices below `n` by routing weight. */
  function Ranked(rw: seq<real>, n: nat): (s: seq<nat>)
    requires n <= |rw|
    ensures Ranks(rw, s, n)
  {
    if n == 0 then []
    else
      var last := n - 1;
      var before := Ranked(rw, last);
      RanksOneMore(rw, before, last, n);
      Insert(rw, before, last)
  }

  function TopK(rw: seq<real>, used: nat): seq<nat> {
    Ranked(rw, |rw|)[..Min(used, |rw|)]
  }

  /**
   The selection is right: distinct experts in descending order of weight, as many as asked for, none
   outweighed by one left out, and the lower index first among equals.
   */
  lemma TopKSelects(rw: seq<real>, used: nat)
    ensures var top := TopK(rw, used);
      && |top| == Min(used, |rw|)
      && (forall j | 0 <= j < |top| :: top[j] < |rw|)
      && (forall i, j | 0 <= i < j < |top| :: top[i] != top[j])
      && (forall i, j | 0 <= i < j < |top| ::
            rw[top[i]] > rw[top[j]] || (rw[top[i]] == rw[top[j]] && top[i] < top[j]))
      && (forall e: nat, j | e < |rw| && e !in top && 0 <= j < |top| ::
            rw[e] < rw[top[j]] || (rw[e] == rw[top[j]] && top[j] < e))
  {
    var all := Ranked(rw, |rw|);
    var top := TopK(rw, used);
    assert forall i | 0 <= i < |top| :: all[i] == top[i] && top[i] in top;
    forall e: nat, j | e < |rw| && e !in top && 0 <= j < |top|
      ensures rw[e] < rw[top[j]] || (rw[e] == rw[top[j]] && top[j] < e)
    {
      assert e in all;
      var k :| 0 <= k < |all| && all[k] == e;
    }
  }

  function SelectedSum(rw: seq<real>, chosen: seq<nat>): real
    requires forall j | 0 <= j < |chosen| :: chosen[j] < |rw|
  {
    if chosen == [] then 0.0 else SelectedSum(rw, chosen[..|chosen| - 1]) + rw[chosen[|chosen| - 1]]
  }

  lemma {:induction false} SelectedSumPositive(rw: seq<real>, chosen: seq<nat>)
    requires forall j | 0 <= j < |chosen| :: chosen[j] < |rw|
    requires forall e | 0 <= e < |rw| :: rw[e] > 0.0
    ensures SelectedSum(rw, chosen) >= 0.0
    ensures chosen != [] ==> SelectedSum(rw, chosen) > 0.0
  {
    if chosen != [] {
      SelectedSumPositive(rw, chosen[..|chosen| - 1]);
    }
  }

  /** A selection of experts for one row, with the weights that go with it. */
  ghost predicate IsSelection(rw: seq<real>, chosen: seq<nat>) {
    && (forall e | 0 <= e < |rw| :: rw[e] > 0.0)
    && (forall j | 0 <= j < |chosen| :: chosen[j] < |rw|)
    && (forall i, j | 0 <= i < j < |chosen| :: chosen[i] != chosen[j])
  }

  /** A selected expert's weight, renormalised over the selection. */
  function Share(rw: seq<real>, chosen: seq<nat>, e: nat): real
    requires IsSelection(rw, chosen) && e in chosen
  {
    SelectedSumPositive(rw, chosen);
    rw[e] / SelectedSum(rw, chosen)
  }

  // ---------- The per-token meaning ----------

  /** The weighted sum of the first `n` selected experts, in the row's own order. */
  function Mixture(rw: seq<real>, chosen: seq<nat>, experts: seq<Vec -> Vec>, x: Vec, n: nat): Vec
    requires IsSelection(rw, chosen) && |rw| == |experts| && n <= |chosen|
  {
    if n == 0 then Zeros(|x|)
    else
      var e := chosen[n - 1];
      Add(Mixture(rw, chosen, experts, x, n - 1), Scale(Share(rw, chosen, e), experts[e](x)))
  }

  function PerToken(ffn: Ffn, x: Vec): Vec
    requires ffn.Valid()
  {
    match ffn
    case Dense(f) => f(x)
    case Moe(used, router, experts) =>
      assert IsRouting(router(x), |experts|);
      TopKSelects(router(x), used);
      var chosen := TopK(router(x), used);
      Mixture(router(x), chosen, experts, x, |chosen|)
  }

  // ---------- What the mixture is ----------

  /** The weights of the first `n` selected experts times what `value` makes of them. */
  function WeighedUp(rw: seq<real>, chosen: seq<nat>, value: nat -> real, n: nat): real
    requires (forall j | 0 <= j < |chosen| :: chosen[j] < |rw|) && n <= |chosen|
  {
    if n == 0 then 0.0
    else WeighedUp(rw, chosen, value, n - 1) + rw[chosen[n - 1]] * value(chosen[n - 1])
  }

  lemma {:induction false} WeighedUpIsSum(rw: seq<real>, chosen: seq<nat>, n: nat)
    requires (forall j | 0 <= j < |chosen| :: chosen[j] < |rw|) && n <= |chosen|
    ensures WeighedUp(rw, chosen, _ => 1.0, n) == SelectedSum(rw, chosen[..n])
  {
    if n > 0 {
      WeighedUpIsSum(rw, chosen, n - 1);
      assert chosen[..n][..n - 1] == chosen[..n - 1];
    }
  }

  lemma OneMoreShare(m: real, w: real, sum: real, y: real)
    requires sum != 0.0
    ensures (m + (w / sum) * y) * sum == m * sum + w * y
  {
    assert (w / sum) * sum == w;
    assert (m + (w / sum) * y) * sum == m * sum + ((w / sum) * sum) * y;
  }

  lemma {:induction false} MixtureTimesSum(rw: seq<real>, chosen: seq<nat>, experts: seq<Vec -> Vec>, x: Vec, c: nat,
                                           n: nat)
    requires IsSelection(rw, chosen) && |rw| == |experts| && n <= |chosen| && c < |x|
    ensures |Mixture(rw, chosen, experts, x, n)| == |x|
    ensures Mixture(rw, chosen, experts, x, n)[c] * SelectedSum(rw, chosen)
      == WeighedUp(rw, chosen, (e: nat) => if e < |experts| then At(experts[e](x), c) else 0.0, n)
  {
    if n > 0 {
      MixtureTimesSum(rw, chosen, experts, x, c, n - 1);
      SelectedSumPositive(rw, chosen);
      var e, last := chosen[n - 1], n - 1;
      ShareAdded(Mixture(rw, chosen, experts, x, last), rw[e], SelectedSum(rw, chosen), experts[e](x), c);
    }
  }

  lemma ShareAdded(m: Vec, w: real, sum: real, y: Vec, c: nat)
    requires sum != 0.0 && c < |m|
    ensures Add(m, Scale(w / sum, y))[c] * sum == m[c] * sum + w * At(y, c)
  {
    assert At(Scale(w / sum, y), c) == (w / sum) * At(y, c);
    OneMoreShare(m[c], w, sum, At(y, c));
  }

  /** Each coordinate, times the sum of the selected weights, is the sum of the experts' coordinates times theirs. */
  ghost predicate IsWeightedMean(rw: seq<real>, chosen: seq<nat>, experts: seq<Vec -> Vec>, x: Vec, y: Vec)
    requires forall j | 0 <= j < |chosen| :: chosen[j] < |rw|
  {
    && |y| == |x|
    && forall c | 0 <= c < |y| ::
         y[c] * WeighedUp(rw, chosen, _ => 1.0, |chosen|)
           == WeighedUp(rw, chosen, (e: nat) => if e < |experts| then At(experts[e](x), c) else 0.0, |chosen|)
  }

  lemma MixtureIsWeightedMean(rw: seq<real>, chosen: seq<nat>, experts: seq<Vec -> Vec>, x: Vec)
    requires IsSelection(rw, chosen) && |rw| == |experts|
    ensures IsWeightedMean(rw, chosen, experts, x, Mixture(rw, chosen, experts, x, |chosen|))
  {
    MixtureLength(rw, chosen, experts, x, |chosen|);
    forall c | 0 <= c < |x|
      ensures Mixture(rw, chosen, experts, x, |chosen|)[c] * WeighedUp(rw, chosen, _ => 1.0, |chosen|)
        == WeighedUp(rw, chosen, (e: nat) => if e < |experts| then At(experts[e](x), c) else 0.0, |chosen|)
    {
      MeanAt(rw, chosen, experts, x, c);
    }
  }

  lemma MeanAt(rw: seq<real>, chosen: seq<nat>, experts: seq<Vec -> Vec>, x: Vec, c: nat)
    requires IsSelection(rw, chosen) && |rw| == |experts| && c < |x|
    ensures |Mixture(rw, chosen, experts, x, |chosen|)| == |x|
    ensures Mixture(rw, chosen, experts, x, |chosen|)[c] * WeighedUp(rw, chosen, _ => 1.0, |chosen|)
      == WeighedUp(rw, chosen, (e: nat) => if e < |experts| then At(experts[e](x), c) else 0.0, |chosen|)
  {
    MixtureTimesSum(rw, chosen, experts, x, c, |chosen|);
    WeighedUpIsSum(rw, chosen, |chosen|);
    assert chosen[..|chosen|] == chosen;
  }

  /** A row of the block is the weighted mean over its own top experts, by its own routing weights. */
  lemma PerTokenIsWeightedMean(used: nat, router: Vec -> seq<real>, experts: seq<Vec -> Vec>, x: Vec) returns (y: Vec)
    requires Moe(used, router, experts).Valid()
    ensures |router(x)| == |experts| && IsSelection(router(x), TopK(router(x), used))
    ensures y == PerToken(Moe(used, router, experts), x)
    ensures IsWeightedMean(router(x), TopK(router(x), used), experts, x, y)
  {
    var rw, chosen := router(x), TopK(router(x), used);
    assert IsRouting(router(x), |experts|);
    TopKSelects(rw, used);
    y := Mixture(rw, chosen, experts, x, |chosen|);
    MixtureIsWeightedMean(rw, chosen, experts, x);
  }

  lemma {:induction false} WeighedUpConstant(rw: seq<real>, chosen: seq<nat>, value: nat -> real, y: real, n: nat)
    requires (forall j | 0 <= j < |chosen| :: chosen[j] < |rw|) && n <= |chosen|
    requires forall j | 0 <= j < |chosen| :: value(chosen[j]) == y
    ensures WeighedUp(rw, chosen, value, n) == y * WeighedUp(rw, chosen, _ => 1.0, n)
  {
    if n > 0 {
      WeighedUpConstant(rw, chosen, value, y, n - 1);
    }
  }

  /** Shares are in the ratio of the weights, and those of a selection make one. */
  lemma SharesAreRenormalised(rw: seq<real>, chosen: seq<nat>)
    requires IsSelection(rw, chosen)
    ensures forall a, b | a in chosen && b in chosen :: Share(rw, chosen, a) * rw[b] == Share(rw, chosen, b) * rw[a]
    ensures chosen != [] ==> SharesOfFirst(rw, chosen, |chosen|) == 1.0
  {
    forall a, b | a in chosen && b in chosen
      ensures Share(rw, chosen, a) * rw[b] == Share(rw, chosen, b) * rw[a]
    {
      SharesInRatio(rw, chosen, a, b);
    }
    if chosen != [] {
      SharesMakeOne(rw, chosen);
    }
  }

  lemma SharesInRatio(rw: seq<real>, chosen: seq<nat>, a: nat, b: nat)
    requires IsSelection(rw, chosen) && a in chosen && b in chosen
    ensures Share(rw, chosen, a) * rw[b] == Share(rw, chosen, b) * rw[a]
  {
    SelectedSumPositive(rw, chosen);
    Proportional(rw[a], rw[b], SelectedSum(rw, chosen));
  }

  lemma SharesMakeOne(rw: seq<real>, chosen: seq<nat>)
    requires IsSelection(rw, chosen) && chosen != []
    ensures SharesOfFirst(rw, chosen, |chosen|) == 1.0
  {
    SelectedSumPositive(rw, chosen);
    SharesTimesSum(rw, chosen, |chosen|);
    assert chosen[..|chosen|] == chosen;
    Cancels(SharesOfFirst(rw, chosen, |chosen|), 1.0, SelectedSum(rw, chosen));
  }

  lemma Proportional(a: real, b: real, sum: real)
    requires sum != 0.0
    ensures (a / sum) * b == (b / sum) * a
  {
  }

  function SharesOfFirst(rw: seq<real>, chosen: seq<nat>, n: nat): real
    requires IsSelection(rw, chosen) && n <= |chosen|
  {
    if n == 0 then 0.0 else SharesOfFirst(rw, chosen, n - 1) + Share(rw, chosen, chosen[n - 1])
  }

  lemma {:induction false} SharesTimesSum(rw: seq<real>, chosen: seq<nat>, n: nat)
    requires IsSelection(rw, chosen) && n <= |chosen|
    ensures SharesOfFirst(rw, chosen, n) * SelectedSum(rw, chosen) == SelectedSum(rw, chosen[..n])
  {
    if n > 0 {
      SharesTimesSum(rw, chosen, n - 1);
      SelectedSumPositive(rw, chosen);
      assert chosen[..n][..n - 1] == chosen[..n - 1];
      OneMoreShare(SharesOfFirst(rw, chosen, n - 1), rw[chosen[n - 1]], SelectedSum(rw, chosen), 1.0);
    }
  }

  lemma Cancels(a: real, b: real, sum: real)
    requires sum != 0.0 && a * sum == b * sum
    ensures a == b
  {
  }

  /** Experts that all do the same leave no trace of the routing, as long as one is used. */
  lemma EqualExperts(used: nat, router: Vec -> seq<real>, experts: seq<Vec -> Vec>, f: Vec -> Vec, x: Vec)
    requires Moe(used, router, experts).Valid() && used > 0 && experts != []
    requires (forall e | 0 <= e < |experts| :: experts[e](x) == f(x)) && |f(x)| == |x|
    ensures PerToken(Moe(used, router, experts), x) == f(x)
  {
    var rw, chosen := router(x), TopK(router(x), used);
    assert IsRouting(router(x), |experts|);
    TopKSelects(rw, used);
    SelectedSumPositive(rw, chosen);
    MixtureLength(rw, chosen, experts, x, |chosen|);
    forall c | 0 <= c < |x|
      ensures Mixture(rw, chosen, experts, x, |chosen|)[c] == f(x)[c]
    {
      EqualCoordinates(rw, chosen, experts, x, f(x), c);
    }
  }

  lemma EqualCoordinates(rw: seq<real>, chosen: seq<nat>, experts: seq<Vec -> Vec>, x: Vec, y: Vec, c: nat)
    requires IsSelection(rw, chosen) && |rw| == |experts| && c < |x| && chosen != []
    requires (forall e | 0 <= e < |experts| :: experts[e](x) == y) && |y| == |x|
    ensures |Mixture(rw, chosen, experts, x, |chosen|)| == |x|
    ensures Mixture(rw, chosen, experts, x, |chosen|)[c] == y[c]
  {
    MixtureTimesSum(rw, chosen, experts, x, c, |chosen|);
    WeighedUpConstant(rw, chosen, (e: nat) => if e < |experts| then At(experts[e](x), c) else 0.0, y[c], |chosen|);
    WeighedUpIsSum(rw, chosen, |chosen|);
    assert chosen[..|chosen|] == chosen;
    SelectedSumPositive(rw, chosen);
    Cancels(Mixture(rw, chosen, experts, x, |chosen|)[c], y[c], SelectedSum(rw, chosen));
  }

  // ---------- Grouping ----------

  /** The routing weights and selections of a batch. */
  ghost predicate IsBatch(rws: seq<seq<real>>, tops: seq<seq<nat>>, experts: nat) {
    && |rws| == |tops|
    && forall t | 0 <= t < |rws| :: |rws[t]| == experts && IsSelection(rws[t], tops[t])
  }

  /** The first `n` rows that chose expert `e`, in order. */
  function RowsOf(tops: seq<seq<nat>>, e: nat, n: nat): seq<nat>
    requires n <= |tops|
  {
    if n == 0 then []
    else RowsOf(tops, e, n - 1) + if e in tops[n - 1] then [n - 1] else []
  }

  /** Their shares, aligned with `RowsOf`. */
  function SharesOf(rws: seq<seq<real>>, tops: seq<seq<nat>>, experts: nat, e: nat, n: nat): (s: seq<real>)
    requires IsBatch(rws, tops, experts) && n <= |tops|
    ensures |s| == |RowsOf(tops, e, n)|
  {
    if n == 0 then []
    else
      SharesOf(rws, tops, experts, e, n - 1)
      + if e in tops[n - 1] then [Share(rws[n - 1], tops[n - 1], e)] else []
  }

  /** Grouping loses nothing: row `t` is listed under exactly the experts it selected, once. */
  lemma {:induction false} RowsOfSelects(tops: seq<seq<nat>>, e: nat, n: nat)
    requires n <= |tops|
    ensures forall t: nat :: t in RowsOf(tops, e, n) <==> t < n && e in tops[t]
    ensures forall i, j | 0 <= i < j < |RowsOf(tops, e, n)| :: RowsOf(tops, e, n)[i] < RowsOf(tops, e, n)[j]
  {
    if n > 0 {
      RowsOfSelects(tops, e, n - 1);
      var before := RowsOf(tops, e, n - 1);
      assert forall i | 0 <= i < |before| :: before[i] in before;
    }
  }

  function Tops(rws: seq<seq<real>>, used: nat): seq<seq<nat>> {
    seq(|rws|, t requires 0 <= t < |rws| => TopK(rws[t], used))
  }

  /** The experts row `t` is listed under. */
  function ExpertsOf(tops: seq<seq<nat>>, experts: nat, t: nat): set<nat> {
    set e: nat | e < experts && t in RowsOf(tops, e, |tops|)
  }

  /** Every row lands in exactly min(k, experts) distinct experts. */
  lemma RowsLandInEnoughExperts(rws: seq<seq<real>>, used: nat, experts: nat, t: nat)
    requires t < |rws| && |rws[t]| == experts
    ensures |ExpertsOf(Tops(rws, used), experts, t)| == Min(used, experts)
  {
    TopKSelects(rws[t], used);
    LandsWhereSelected(Tops(rws, used), experts, t);
  }

  lemma LandsWhereSelected(tops: seq<seq<nat>>, experts: nat, t: nat)
    requires t < |tops|
    requires forall j | 0 <= j < |tops[t]| :: tops[t][j] < experts
    requires forall i, j | 0 <= i < j < |tops[t]| :: tops[t][i] != tops[t][j]
    ensures |ExpertsOf(tops, experts, t)| == |tops[t]|
  {
    forall e: nat
      ensures t in RowsOf(tops, e, |tops|) <==> e in tops[t]
    {
      RowsOfSelects(tops, e, |tops|);
    }
    DistinctCount(tops[t]);
    assert ExpertsOf(tops, experts, t) == Elements(tops[t]);
  }

  function Elements(s: seq<nat>): set<nat> {
    set e | e in s
  }

  lemma {:induction false} DistinctCount(s: seq<nat>)
    requires forall i, j | 0 <= i < j < |s| :: s[i] != s[j]
    ensures |Elements(s)| == |s|
  {
    if s == [] {
      assert Elements(s) == {};
    } else {
      var init, last := s[..|s| - 1], s[|s| - 1];
      DistinctCount(init);
      assert s == init + [last] && last !in init;
      assert Elements(s) == Elements(init) + {last};
    }
  }

  // ---------- The order of the sum does not matter ----------

  /** The weighted sum of the selected experts below `n`, in the order the experts are run. */
  function ByExpert(rw: seq<real>, chosen: seq<nat>, experts: seq<Vec -> Vec>, x: Vec, n: nat): (r: Vec)
    requires IsSelection(rw, chosen) && |rw| == |experts| && n <= |experts|
    ensures |r| == |x|
  {
    if n == 0 then Zeros(|x|)
    else
      var before := ByExpert(rw, chosen, experts, x, n - 1);
      if n - 1 in chosen then Add(before, Scale(Share(rw, chosen, n - 1), experts[n - 1](x))) else before
  }

  /** What expert `e` adds to coordinate `c`. */
  function Term(rw: seq<real>, chosen: seq<nat>, experts: seq<Vec -> Vec>, x: Vec, c: nat, e: nat): real
    requires IsSelection(rw, chosen) && |rw| == |experts| && e in chosen
  {
    At(Scale(Share(rw, chosen, e), experts[e](x)), c)
  }

  /** Coordinate `c` summed over the experts below `n` among the first `k` selected. */
  function Partial(rw: seq<real>, chosen: seq<nat>, experts: seq<Vec -> Vec>, x: Vec, c: nat, k: nat, n: nat): real
    requires IsSelection(rw, chosen) && |rw| == |experts| && n <= |experts| && k <= |chosen|
  {
    if n == 0 then 0.0
    else
      Partial(rw, chosen, experts, x, c, k, n - 1)
      + if n - 1 in chosen[..k] then Term(rw, chosen, experts, x, c, n - 1) else 0.0
  }

  lemma {:induction false} PartialIsByExpert(rw: seq<real>, chosen: seq<nat>, experts: seq<Vec -> Vec>, x: Vec,
                                             c: nat, n: nat)
    requires IsSelection(rw, chosen) && |rw| == |experts| && n <= |experts| && c < |x|
    ensures Partial(rw, chosen, experts, x, c, |chosen|, n) == ByExpert(rw, chosen, experts, x, n)[c]
  {
    if n > 0 {
      PartialIsByExpert(rw, chosen, experts, x, c, n - 1);
      assert chosen[..|chosen|] == chosen;
    }
  }

  lemma {:induction false} PartialAddsOne(rw: seq<real>, chosen: seq<nat>, experts: seq<Vec -> Vec>, x: Vec, c: nat,
                                          k: nat, n: nat)
    requires IsSelection(rw, chosen) && |rw| == |experts| && n <= |experts| && 0 < k <= |chosen|
    ensures Partial(rw, chosen, experts, x, c, k, n) == Partial(rw, chosen, experts, x, c, k - 1, n)
      + if chosen[k - 1] < n then Term(rw, chosen, experts, x, c, chosen[k - 1]) else 0.0
  {
    if n > 0 {
      PartialAddsOne(rw, chosen, experts, x, c, k, n - 1);
      assert chosen[..k] == chosen[..k - 1] + [chosen[k - 1]];
    }
  }

  lemma {:induction false} PartialEmpty(rw: seq<real>, chosen: seq<nat>, experts: seq<Vec -> Vec>, x: Vec, c: nat,
                                        n: nat)
    requires IsSelection(rw, chosen) && |rw| == |experts| && n <= |experts|
    ensures Partial(rw, chosen, experts, x, c, 0, n) == 0.0
  {
    if n > 0 {
      PartialEmpty(rw, chosen, experts, x, c, n - 1);
    }
  }

  lemma {:induction false} PartialIsMixture(rw: seq<real>, chosen: seq<nat>, experts: seq<Vec -> Vec>, x: Vec, c: nat,
                                            k: nat)
    requires IsSelection(rw, chosen) && |rw| == |experts| && k <= |chosen| && c < |x|
    ensures |Mixture(rw, chosen, experts, x, k)| == |x|
    ensures Partial(rw, chosen, experts, x, c, k, |experts|) == Mixture(rw, chosen, experts, x, k)[c]
  {
    if k == 0 {
      PartialEmpty(rw, chosen, experts, x, c, |experts|);
    } else {
      PartialIsMixture(rw, chosen, experts, x, c, k - 1);
      PartialAddsOne(rw, chosen, experts, x, c, k, |experts|);
    }
  }

  lemma {:induction false} MixtureLength(rw: seq<real>, chosen: seq<nat>, experts: seq<Vec -> Vec>, x: Vec, k: nat)
    requires IsSelection(rw, chosen) && |rw| == |experts| && k <= |chosen|
    ensures |Mixture(rw, chosen, experts, x, k)| == |x|
  {
    if k > 0 {
      MixtureLength(rw, chosen, experts, x, k - 1);
    }
  }

  /** Summing in expert order, as the grouped code does, is summing in each row's own order. */
  lemma ByExpertIsMixture(rw: seq<real>, chosen: seq<nat>, experts: seq<Vec -> Vec>, x: Vec)
    requires IsSelection(rw, chosen) && |rw| == |experts|
    ensures ByExpert(rw, chosen, experts, x, |experts|) == Mixture(rw, chosen, experts, x, |chosen|)
  {
    MixtureLength(rw, chosen, experts, x, |chosen|);
    forall c | 0 <= c < |x|
      ensures ByExpert(rw, chosen, experts, x, |experts|)[c] == Mixture(rw, chosen, experts, x, |chosen|)[c]
    {
      PartialIsByExpert(rw, chosen, experts, x, c, |experts|);
      PartialIsMixture(rw, chosen, experts, x, c, |chosen|);
    }
  }

  // ---------- Scatter ----------

  /** `index_add` along the rows. */
  function IndexAdd(ys: seq<Vec>, rows: seq<nat>, vals: seq<Vec>): (r: seq<Vec>)
    requires |rows| == |vals| && forall i | 0 <= i < |rows| :: rows[i] < |ys|
    ensures |r| == |ys|
  {
    if rows == [] then ys
    else
      var n := |rows| - 1;
      var before := IndexAdd(ys, rows[..n], vals[..n]);
      before[rows[n] := Add(before[rows[n]], vals[n])]
  }

  /** Expert `e` run once over its rows: gather, apply, weight. */
  function Weighted(xs: seq<Vec>, rows: seq<nat>, shares: seq<real>, expert: Vec -> Vec): (vals: seq<Vec>)
    requires |rows| == |shares| && forall i | 0 <= i < |rows| :: rows[i] < |xs|
    ensures |vals| == |rows|
  {
    seq(|rows|, i requires 0 <= i < |rows| => Scale(shares[i], expert(xs[rows[i]])))
  }

  /** Scattering to distinct rows adds each value once and touches nothing else. */
  lemma {:induction false} IndexAddDistinct(ys: seq<Vec>, rows: seq<nat>, vals: seq<Vec>)
    requires |rows| == |vals| && forall i | 0 <= i < |rows| :: rows[i] < |ys|
    requires forall i, j | 0 <= i < j < |rows| :: rows[i] < rows[j]
    ensures forall i | 0 <= i < |rows| :: IndexAdd(ys, rows, vals)[rows[i]] == Add(ys[rows[i]], vals[i])
    ensures forall t: nat | t < |ys| && t !in rows :: IndexAdd(ys, rows, vals)[t] == ys[t]
  {
    if rows != [] {
      var n := |rows| - 1;
      IndexAddDistinct(ys, rows[..n], vals[..n]);
      assert forall i | 0 <= i < n :: rows[..n][i] == rows[i] && vals[..n][i] == vals[i];
      assert rows[n] !in rows[..n];
    }
  }

  /** `top_x[e]` and `selected_rws[e]` stay aligned: each listed share is the listed row's own. */
  lemma {:induction false} SharesAligned(rws: seq<seq<real>>, tops: seq<seq<nat>>, experts: nat, e: nat, n: nat)
    requires IsBatch(rws, tops, experts) && n <= |tops|
    ensures forall i | 0 <= i < |RowsOf(tops, e, n)| ::
      var t := RowsOf(tops, e, n)[i];
      t < n && e in tops[t] && SharesOf(rws, tops, experts, e, n)[i] == Share(rws[t], tops[t], e)
  {
    if n > 0 {
      SharesAligned(rws, tops, experts, e, n - 1);
    }
  }

  /** Running expert `e` and scattering its results moves every row on by one expert. */
  lemma ScatterAdvances(rws: seq<seq<real>>, tops: seq<seq<nat>>, experts: seq<Vec -> Vec>,
                        xs: seq<Vec>, ys: seq<Vec>, e: nat, t: nat)
    requires IsBatch(rws, tops, |experts|) && |xs| == |tops| == |ys| && e < |experts| && t < |xs|
    requires ys[t] == ByExpert(rws[t], tops[t], experts, xs[t], e)
    ensures var rows, shares := RowsOf(tops, e, |xs|), SharesOf(rws, tops, |experts|, e, |xs|);
      && (forall i | 0 <= i < |rows| :: rows[i] < |xs|)
      && IndexAdd(ys, rows, Weighted(xs, rows, shares, experts[e]))[t]
          == ByExpert(rws[t], tops[t], experts, xs[t], e + 1)
      && (rows == [] ==> ys[t] == ByExpert(rws[t], tops[t], experts, xs[t], e + 1))
  {
    var rows, shares := RowsOf(tops, e, |xs|), SharesOf(rws, tops, |experts|, e, |xs|);
    RowsOfSelects(tops, e, |xs|);
    SharesAligned(rws, tops, |experts|, e, |xs|);
    IndexAddDistinct(ys, rows, Weighted(xs, rows, shares, experts[e]));
    assert t in rows <==> e in tops[t];
    if t in rows {
      var i :| 0 <= i < |rows| && rows[i] == t;
      assert Weighted(xs, rows, shares, experts[e])[i] == Scale(Share(rws[t], tops[t], e), experts[e](xs[t]));
    }
  }

  // ---------- The grouped forward pass ----------

  /** Row `t` has been added to the list of every expert it selected. */
  ghost predicate RowListed(before: seq<seq<nat>>, after: seq<seq<nat>>, dst: seq<nat>, t: nat) {
    && |after| == |before|
    && forall e | 0 <= e < |before| :: after[e] == before[e] + if e in dst then [t] else []
  }

  /** And its shares to theirs. */
  ghost predicate SharesListed(before: seq<seq<real>>, after: seq<seq<real>>, rw: seq<real>, dst: seq<nat>)
    requires IsSelection(rw, dst)
  {
    && |after| == |before|
    && forall e | 0 <= e < |before| :: after[e] == before[e] + if e in dst then [Share(rw, dst, e)] else []
  }

  /** The first pass over a row's selection: list the row, total the weights. */
  method ListRow(rw: seq<real>, dst: seq<nat>, t: nat, topX: array<seq<nat>>) returns (sum: real)
    requires IsSelection(rw, dst) && |rw| == topX.Length
    modifies topX
    ensures sum == SelectedSum(rw, dst)
    ensures RowListed(old(topX[..]), topX[..], dst, t)
  {
    sum := 0.0;
    for j := 0 to |dst|
      invariant sum == SelectedSum(rw, dst[..j])
      invariant forall e | 0 <= e < topX.Length :: topX[e] == old(topX[e]) + if e in dst[..j] then [t] else []
    {
      assert dst[..j + 1] == dst[..j] + [dst[j]];
      sum := sum + rw[dst[j]];
      topX[dst[j]] := topX[dst[j]] + [t];
    }
    assert dst[..|dst|] == dst;
  }

  /** The second pass: list the renormalised weights. */
  method ListShares(rw: seq<real>, dst: seq<nat>, sum: real, selectedRws: array<seq<real>>)
    requires IsSelection(rw, dst) && |rw| == selectedRws.Length
    requires sum == SelectedSum(rw, dst)
    modifies selectedRws
    ensures SharesListed(old(selectedRws[..]), selectedRws[..], rw, dst)
  {
    SelectedSumPositive(rw, dst);
    for j := 0 to |dst|
      invariant forall e | 0 <= e < selectedRws.Length ::
        selectedRws[e] == old(selectedRws[e]) + if e in dst[..j] then [Share(rw, dst, e)] else []
    {
      assert dst[..j + 1] == dst[..j] + [dst[j]];
      selectedRws[dst[j]] := selectedRws[dst[j]] + [rw[dst[j]] / sum];
    }
    assert dst[..|dst|] == dst;
  }

  /** The lists after the first `n` rows. */
  ghost predicate Grouped(rws: seq<seq<real>>, tops: seq<seq<nat>>, experts: nat,
                          rows: seq<seq<nat>>, shares: seq<seq<real>>, n: nat)
    requires IsBatch(rws, tops, experts) && n <= |rws|
  {
    && |rows| == |shares| == experts
    && (forall e | 0 <= e < experts :: rows[e] == RowsOf(tops, e, n))
    && (forall e | 0 <= e < experts :: shares[e] == SharesOf(rws, tops, experts, e, n))
  }

  lemma GroupedNext(rws: seq<seq<real>>, tops: seq<seq<nat>>, experts: nat, rows: seq<seq<nat>>, shares: seq<seq<real>>,
                    rows': seq<seq<nat>>, shares': seq<seq<real>>, n: nat)
    requires IsBatch(rws, tops, experts) && n < |rws|
    requires Grouped(rws, tops, experts, rows, shares, n)
    requires RowListed(rows, rows', tops[n], n) && SharesListed(shares, shares', rws[n], tops[n])
    ensures Grouped(rws, tops, experts, rows', shares', n + 1)
  {
  }

  /** Both passes over one row. */
  method GroupRow(rws: seq<seq<real>>, tops: seq<seq<nat>>, ghost experts: nat, t: nat, rows: array<seq<nat>>,
                  shares: array<seq<real>>)
    requires IsBatch(rws, tops, experts) && t < |rws|
    requires Grouped(rws, tops, experts, rows[..], shares[..], t)
    modifies rows, shares
    ensures Grouped(rws, tops, experts, rows[..], shares[..], t + 1)
  {
    ghost var rowsBefore, sharesBefore := rows[..], shares[..];
    var sum := ListRow(rws[t], tops[t], t, rows);
    assert shares[..] == sharesBefore;
    ghost var rowsAfter := rows[..];
    ListShares(rws[t], tops[t], sum, shares);
    assert rows[..] == rowsAfter;
    GroupedNext(rws, tops, experts, rowsBefore, sharesBefore, rowsAfter, shares[..], t);
  }

  /** Lists every row under each expert it selected, with its share. */
  method Group(rws: seq<seq<real>>, tops: seq<seq<nat>>, experts: nat)
    returns (topX: seq<seq<nat>>, selectedRws: seq<seq<real>>)
    requires IsBatch(rws, tops, experts)
    ensures |topX| == |selectedRws| == experts
    ensures Grouped(rws, tops, experts, topX, selectedRws, |rws|)
  {
    var rows := new seq<nat>[experts](_ => []);
    var shares := new seq<real>[experts](_ => []);
    for t := 0 to |rws|
      invariant Grouped(rws, tops, experts, rows[..], shares[..], t)
    {
      GroupRow(rws, tops, experts, t, rows, shares);
    }
    topX, selectedRws := rows[..], shares[..];
  }

  lemma TopsAreSelections(rws: seq<seq<real>>, used: nat, experts: nat)
    requires forall t | 0 <= t < |rws| :: IsRouting(rws[t], experts)
    ensures IsBatch(rws, Tops(rws, used), experts)
  {
    forall t | 0 <= t < |rws|
      ensures IsSelection(rws[t], TopK(rws[t], used))
    {
      TopKSelects(rws[t], used);
    }
  }

  /** One expert's turn: nothing if no row chose it, otherwise run it once over its rows and add the results back. */
  method RunExpert(ghost rws: seq<seq<real>>, ghost tops: seq<seq<nat>>, experts: seq<Vec -> Vec>, xs: seq<Vec>,
                   ys: seq<Vec>, e: nat, rows: seq<nat>, shares: seq<real>)
    returns (out: seq<Vec>)
    requires IsBatch(rws, tops, |experts|) && |xs| == |tops| == |ys| && e < |experts|
    requires rows == RowsOf(tops, e, |xs|) && shares == SharesOf(rws, tops, |experts|, e, |xs|)
    requires forall t | 0 <= t < |xs| :: ys[t] == ByExpert(rws[t], tops[t], experts, xs[t], e)
    ensures |out| == |xs|
    ensures forall t | 0 <= t < |xs| :: out[t] == ByExpert(rws[t], tops[t], experts, xs[t], e + 1)
  {
    RowsOfSelects(tops, e, |xs|);
    assert forall i | 0 <= i < |rows| :: rows[i] in rows;
    out := if rows == [] then ys else IndexAdd(ys, rows, Weighted(xs, rows, shares, experts[e]));
    forall t | 0 <= t < |xs|
      ensures out[t] == ByExpert(rws[t], tops[t], experts, xs[t], e + 1)
    {
      ScatterAdvances(rws, tops, experts, xs, ys, e, t);
    }
  }

  /** The mixture branch over a whole batch, given each row's sorted selection. */
  method ForwardMoe(rws: seq<seq<real>>, tops: seq<seq<nat>>, experts: seq<Vec -> Vec>, xs: seq<Vec>)
    returns (ys: seq<Vec>)
    requires |rws| == |xs| && IsBatch(rws, tops, |experts|)
    ensures |ys| == |xs|
    ensures forall t | 0 <= t < |xs| :: ys[t] == Mixture(rws[t], tops[t], experts, xs[t], |tops[t]|)
  {
    var topX, selectedRws := Group(rws, tops, |experts|);
    ys := seq(|xs|, t requires 0 <= t < |xs| => Zeros(|xs[t]|));
    for e := 0 to |experts|
      invariant |ys| == |xs|
      invariant forall t | 0 <= t < |xs| :: ys[t] == ByExpert(rws[t], tops[t], experts, xs[t], e)
    {
      ys := RunExpert(rws, tops, experts, xs, ys, e, topX[e], selectedRws[e]);
    }
    forall t | 0 <= t < |xs|
      ensures ys[t] == Mixture(rws[t], tops[t], experts, xs[t], |tops[t]|)
    {
      ByExpertIsMixture(rws[t], tops[t], experts, xs[t]);
    }
  }

  /** `MlpOrMoe::forward`: over a batch, every row gets what the block means for it alone. */
  method Forward(ffn: Ffn, xs: seq<Vec>) returns (ys: seq<Vec>)
    requires ffn.Valid()
    ensures |ys| == |xs|
    ensures forall t | 0 <= t < |xs| :: ys[t] == PerToken(ffn, xs[t])
  {
    match ffn
    case Dense(f) =>
      ys := seq(|xs|, t requires 0 <= t < |xs| => f(xs[t]));
    case Moe(used, router, experts) =>
      var rws := seq(|xs|, t requires 0 <= t < |xs| => router(xs[t]));
      TopsAreSelections(rws, used, |experts|);
      ys := ForwardMoe(rws, Tops(rws, used), experts, xs);
  }
}
