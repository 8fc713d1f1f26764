/**
 The layer planner, crates/latticed/src/chat/plan.rs.

 `Build` fills a backward feasibility table with a two-pointer sweep over prefix sums and then
 walks forward, cutting the layers where the cumulative memory is closest to proportional.
 The specification does not mention prefix sums, tables or windows: it says that some split of
 the layers into one non-empty run per device fits every budget.
 */
module Planner {
  import opened Wrappers
  import opened Integers
  import opened ModelFacts

  const MAX_LAYERS := 4096
  const MAX_DEVICES := 63

  datatype Gpu = Gpu(total: u64, free: u64)

  datatype PlanError = UnsupportedModel | BadDeviceCount | NoFit

  /** What a plan has to satisfy: a cost per layer, the output tensors, a budget per device. */
  datatype Problem = Problem(costs: seq<nat>, output: nat, budgets: seq<nat>)

  // ---------- The specification ----------

  function Budget(device: Gpu, reserve: u64): u64 {
    var free := Min(device.free, device.total);
    SaturatingSub(free, Max(reserve, free / 10))
  }

  predicate Supported(inventory: Inventory) {
    var f := inventory.facts;
    && 1 <= f.layers <= MAX_LAYERS
    && f.hidden > 0
    && f.heads > 0 && f.hidden % f.heads == 0
    && 1 <= f.kvHeads <= f.heads
    && |inventory.layerBytes| == f.layers
  }

  predicate CountFits(inventory: Inventory, count: nat) {
    1 <= count <= MAX_DEVICES && count <= inventory.facts.layers
  }

  function ProblemOf(inventory: Inventory, context: u32, devices: seq<Gpu>, reserve: u64): Problem
    requires Supported(inventory)
  {
    Problem(
      Costs(inventory, context),
      inventory.outputBytes,
      Budgets(devices, reserve))
  }

  function Costs(inventory: Inventory, context: u32): seq<nat>
    requires Supported(inventory)
  {
    var kv := KvPerLayer(inventory.facts, context);
    seq<nat>(|inventory.layerBytes|, i requires 0 <= i < |inventory.layerBytes| => inventory.layerBytes[i] + kv)
  }

  function Budgets(devices: seq<Gpu>, reserve: u64): seq<nat> {
    seq<nat>(|devices|, d requires 0 <= d < |devices| => Budget(devices[d], reserve))
  }

  /** Bytes of layers `start..end`. */
  function Span(costs: seq<nat>, start: nat, end: nat): nat
    requires start <= end <= |costs|
  {
    if start == end then 0 else Span(costs, start, end - 1) + costs[end - 1]
  }

  function Extra(p: Problem, device: nat): nat {
    if device + 1 == |p.budgets| then p.output else 0
  }

  predicate Holds(p: Problem, device: nat, start: nat, end: nat)
    requires device < |p.budgets|
    requires start <= end <= |p.costs|
  {
    Span(p.costs, start, end) + Extra(p, device) <= p.budgets[device]
  }

  /** `cuts` splits the layers into one non-empty contiguous run per device, each within budget. */
  ghost predicate Fits(p: Problem, cuts: seq<nat>) {
    && |cuts| == |p.budgets| + 1
    && cuts[0] == 0
    && cuts[|p.budgets|] == |p.costs|
    && forall d, e | 0 <= d < |p.budgets| && e == d + 1 ::
      && cuts[d] < cuts[e] <= |p.costs|
      && Holds(p, d, cuts[d], cuts[e])
  }

  ghost predicate Solvable(p: Problem) {
    exists cuts :: Fits(p, cuts)
  }

  /** Layers `start..` can be placed on devices `device..`. */
  ghost predicate CanPlace(p: Problem, device: nat, start: nat)
    requires device <= |p.budgets|
    requires start <= |p.costs|
    decreases |p.budgets| - device
  {
    if device == |p.budgets| then start == |p.costs|
    else exists end | start < end <= |p.costs| :: Holds(p, device, start, end) && CanPlace(p, device + 1, end)
  }

  function Total(xs: seq<nat>): nat {
    if xs == [] then 0 else Total(xs[..|xs| - 1]) + xs[|xs| - 1]
  }

  /** The cuts a list of shares stands for; the last share also counts the output as a layer. */
  function Cuts(shares: seq<nat>): seq<nat> {
    seq<nat>(|shares| + 1, d requires 0 <= d <= |shares| =>
      if d == |shares| then SaturatingSub(Total(shares), 1) else Total(shares[..d]))
  }

  /**
   How far a cut is from proportional, scaled by the total budget so that it stays an integer:
   the source compares `|prefix[end] + extra - total_bytes * cumulative / total_budget|`.
   */
  function Offset(p: Problem, device: nat, end: nat): nat
    requires device < |p.budgets|
    requires end <= |p.costs|
  {
    AbsDiff(
      (Span(p.costs, 0, end) + Extra(p, device)) * Total(p.budgets),
      (Span(p.costs, 0, |p.costs|) + p.output) * Total(p.budgets[..device + 1]))
  }

  function AbsDiff(a: int, b: int): nat {
    if a >= b then a - b else b - a
  }

  ghost predicate Candidate(p: Problem, device: nat, start: nat, end: nat)
    requires device < |p.budgets|
  {
    start < end <= |p.costs| && Holds(p, device, start, end) && CanPlace(p, device + 1, end)
  }

  /** `cut` is the first of the candidates closest to the proportional target. */
  ghost predicate Closest(p: Problem, device: nat, start: nat, cut: nat)
    requires device < |p.budgets|
  {
    && Candidate(p, device, start, cut)
    && forall end: nat | Candidate(p, device, start, end) ::
      && Offset(p, device, cut) <= Offset(p, device, end)
      && (end < cut ==> Offset(p, device, cut) < Offset(p, device, end))
  }

  // ---------- Facts about spans ----------

  lemma {:induction false} SpanSplits(costs: seq<nat>, start: nat, mid: nat, end: nat)
    requires start <= mid <= end <= |costs|
    ensures Span(costs, start, end) == Span(costs, start, mid) + Span(costs, mid, end)
    decreases end
  {
    if mid < end {
      SpanSplits(costs, start, mid, end - 1);
    }
  }

  lemma {:induction false} SpanBounded(costs: seq<nat>, start: nat, end: nat, most: nat)
    requires start <= end <= |costs|
    requires forall i | 0 <= i < |costs| :: costs[i] <= most
    ensures Span(costs, start, end) <= (end - start) * most
    decreases end
  {
    if start < end {
      SpanBounded(costs, start, end - 1, most);
      assert (end - start) * most == (end - 1 - start) * most + most;
    }
  }

  lemma {:induction false} TotalBounded(xs: seq<nat>, most: nat)
    requires forall i | 0 <= i < |xs| :: xs[i] <= most
    ensures Total(xs) <= |xs| * most
  {
    if xs != [] {
      TotalBounded(xs[..|xs| - 1], most);
    }
  }

  lemma TotalAppend(xs: seq<nat>, x: nat)
    ensures Total(xs + [x]) == Total(xs) + x
  {
    assert (xs + [x])[..|xs|] == xs;
  }

  /** A longer run never fits where a shorter one does not, so the fitting ends are a prefix. */
  lemma HoldsShrinks(p: Problem, device: nat, start: nat, end: nat, longer: nat)
    requires device < |p.budgets|
    requires start <= end <= longer <= |p.costs|
    requires Holds(p, device, start, longer)
    ensures Holds(p, device, start, end)
  {
    SpanSplits(p.costs, start, end, longer);
  }

  lemma {:induction false} FitsGivesPlacement(p: Problem, cuts: seq<nat>, device: nat)
    requires Fits(p, cuts)
    requires device <= |p.budgets|
    ensures cuts[device] <= |p.costs| && CanPlace(p, device, cuts[device])
    decreases |p.budgets| - device
  {
    if device < |p.budgets| {
      FitsGivesPlacement(p, cuts, device + 1);
      assert Holds(p, device, cuts[device], cuts[device + 1]) && CanPlace(p, device + 1, cuts[device + 1]);
    }
  }

  // ---------- The algorithm ----------

  /** The most any prefix sum can come to: 4096 layers of 64-bit weights and three 32-bit factors of cache. */
  lemma SpansFit(costs: seq<nat>)
    requires |costs| <= MAX_LAYERS
    requires forall i | 0 <= i < |costs| :: costs[i] < 0x5_0000_0000_0000_0000_0000_0000
    ensures forall i | 0 <= i <= |costs| :: Span(costs, 0, i) < 0x1_0000_0000_0000_0000_0000_0000_0000
  {
    forall i | 0 <= i <= |costs|
      ensures Span(costs, 0, i) < 0x1_0000_0000_0000_0000_0000_0000_0000
    {
      SpanBounded(costs, 0, i, 0x5_0000_0000_0000_0000_0000_0000);
    }
  }

  /** Sums that leave room for the output and still fit 128 bits. */
  ghost predicate Roomy(p: Problem, prefix: seq<u128>) {
    (forall i {:trigger prefix[i]} | 0 <= i < |prefix| :: prefix[i] < 0x1_0000_0000_0000_0000_0000_0000_0000)
      && p.output < 0x1_0000_0000_0000_0000
  }

  /** Prefix sums, in u128 throughout. */
  method PrefixSums(layerBytes: seq<u64>, kv: u128, ghost costs: seq<nat>) returns (prefix: seq<u128>)
    requires |layerBytes| <= MAX_LAYERS
    requires kv < 0x4_0000_0000_0000_0000_0000_0000
    requires |costs| == |layerBytes| && forall i | 0 <= i < |costs| :: costs[i] == layerBytes[i] + kv
    ensures |prefix| == |layerBytes| + 1
    ensures forall i | 0 <= i <= |layerBytes| :: prefix[i] == Span(costs, 0, i)
    ensures forall i | 0 <= i <= |layerBytes| :: prefix[i] < 0x1_0000_0000_0000_0000_0000_0000_0000
  {
    SpansFit(costs);
    var sums := new u128[|layerBytes| + 1](_ => 0);
    for index := 0 to |layerBytes|
      invariant forall i | 0 <= i <= index :: sums[i] == Span(costs, 0, i)
    {
      assert Span(costs, 0, index + 1) < 0x1_0000_0000_0000_0000_0000_0000_0000;
      sums[index + 1] := sums[index] + layerBytes[index] + kv;
    }
    prefix := sums[..];
  }

  /** Some cut within budget from `start` lands on a feasible position of the next row. */
  ghost predicate Reaches(p: Problem, device: nat, next: seq<bool>, start: nat)
    requires device < |p.budgets| && |next| == |p.costs| + 1
  {
    exists end | start < end <= |p.costs| :: Holds(p, device, start, end) && next[end]
  }

  /** `counts[i]` is how many of the first `i` positions are feasible. */
  method Reachable(next: seq<bool>) returns (counts: seq<nat>)
    ensures |counts| == |next| + 1
    ensures forall i {:trigger counts[i]} | 0 <= i <= |next| :: counts[i] == CountTrue(next, i)
  {
    var slots := new nat[|next| + 1](_ => 0);
    for end := 0 to |next|
      invariant forall i {:trigger slots[i]} | 0 <= i <= end :: slots[i] == CountTrue(next, i)
    {
      slots[end + 1] := slots[end] + if next[end] then 1 else 0;
    }
    counts := slots[..];
  }

  /**
   One row of the table.  `advances` counts how often the inner loop moved `end`: once per layer
   at most, over the whole row.
   */
  method FillRow(p: Problem, device: nat, prefix: seq<u128>, next: seq<bool>)
    returns (row: array<bool>, ghost advances: nat)
    requires device < |p.budgets|
    requires p.budgets[device] >= Extra(p, device)
    requires |prefix| == |p.costs| + 1 == |next|
    requires forall i {:trigger prefix[i]} | 0 <= i <= |p.costs| :: prefix[i] == Span(p.costs, 0, i)
    ensures fresh(row) && row.Length == |p.costs| + 1
    ensures forall s | 0 <= s <= |p.costs| :: row[s] == Reaches(p, device, next, s)
    ensures advances <= |p.costs|
  {
    var layers := |p.costs|;
    var budget := p.budgets[device] - Extra(p, device);
    var reachable := Reachable(next);
    row := new bool[layers + 1](_ => false);
    advances := 0;
    var end := 0;
    for start := 0 to layers
      invariant 0 <= end <= layers
      invariant start <= end + 1
      invariant start == 0 ==> end == 0
      invariant start > 0 ==> start - 1 <= end && Span(p.costs, start - 1, end) <= budget
      invariant advances <= end
      invariant forall s | 0 <= s < start :: row[s] == Reaches(p, device, next, s)
      invariant row[layers] == false
    {
      if start > 0 && start <= end {
        SpanSplits(p.costs, start - 1, start, end);
      }
      end := Max(end, start);
      assert Span(p.costs, start, end) <= budget;
      while end < layers && PrefixGap(p, prefix, start, end + 1) <= budget
        invariant start <= end <= layers
        invariant Span(p.costs, start, end) <= budget
        invariant advances <= end
      {
        end := end + 1;
        advances := advances + 1;
      }
      row[start] := reachable[end + 1] > reachable[start + 1];
      WindowDecides(p, device, next, start, end);
    }
  }

  /** `prefix[end] - prefix[start]`, which never underflows. */
  function PrefixGap(p: Problem, prefix: seq<u128>, start: nat, end: nat): (gap: u128)
    requires start <= end <= |p.costs|
    requires |prefix| == |p.costs| + 1
    requires forall i {:trigger prefix[i]} | 0 <= i <= |p.costs| :: prefix[i] == Span(p.costs, 0, i)
    ensures gap == Span(p.costs, start, end)
  {
    SpanSplits(p.costs, 0, start, end);
    prefix[end] - prefix[start]
  }

  /** `prefix[end] - prefix[start] + extra`. */
  function Charge(p: Problem, prefix: seq<u128>, device: nat, start: nat, end: nat): (charge: u128)
    requires start <= end <= |p.costs| && device < |p.budgets|
    requires |prefix| == |p.costs| + 1 && Roomy(p, prefix)
    requires forall i {:trigger prefix[i]} | 0 <= i <= |p.costs| :: prefix[i] == Span(p.costs, 0, i)
    ensures charge == Span(p.costs, start, end) + Extra(p, device)
  {
    assert PrefixGap(p, prefix, start, end) <= prefix[end];
    PrefixGap(p, prefix, start, end) + Extra(p, device)
  }

  function CountTrue(flags: seq<bool>, n: nat): nat
    requires n <= |flags|
  {
    if n == 0 then 0 else CountTrue(flags, n - 1) + if flags[n - 1] then 1 else 0
  }

  lemma {:induction false} CountTrueGrows(flags: seq<bool>, lo: nat, hi: nat)
    requires lo <= hi <= |flags|
    ensures CountTrue(flags, lo) <= CountTrue(flags, hi)
    ensures CountTrue(flags, lo) < CountTrue(flags, hi) <==> exists i | lo <= i < hi :: flags[i]
    decreases hi
  {
    if lo < hi {
      CountTrueGrows(flags, lo, hi - 1);
      if flags[hi - 1] {
        assert CountTrue(flags, lo) < CountTrue(flags, hi);
      }
    }
  }

  /** The prefix count answers "is there a feasible cut in the window" exactly. */
  lemma WindowDecides(p: Problem, device: nat, next: seq<bool>, start: nat, end: nat)
    requires device < |p.budgets|
    requires |next| == |p.costs| + 1
    requires start < |p.costs| && start <= end <= |p.costs|
    requires Holds(p, device, start, end)
    requires end < |p.costs| ==> !Holds(p, device, start, end + 1)
    ensures CountTrue(next, end + 1) > CountTrue(next, start + 1) <==> Reaches(p, device, next, start)
  {
    CountTrueGrows(next, start + 1, end + 1);
    forall e | start < e <= |p.costs|
      ensures Holds(p, device, start, e) <==> e <= end
    {
      if e <= end {
        HoldsShrinks(p, device, start, e, end);
      } else if Holds(p, device, start, e) {
        HoldsShrinks(p, device, start, end + 1, e);
      }
    }
  }

  /** The feasibility table, last device first; a device that cannot even hold its extra keeps an empty row. */
  method FillTable(p: Problem, prefix: seq<u128>) returns (feasible: seq<seq<bool>>)
    requires |p.budgets| > 0
    requires |prefix| == |p.costs| + 1
    requires forall i {:trigger prefix[i]} | 0 <= i <= |p.costs| :: prefix[i] == Span(p.costs, 0, i)
    ensures |feasible| == |p.budgets| + 1
    ensures forall d | 0 <= d <= |p.budgets| :: |feasible[d]| == |p.costs| + 1
    ensures forall d, s | 0 <= d <= |p.budgets| && 0 <= s <= |p.costs| :: feasible[d][s] == CanPlace(p, d, s)
  {
    var count, layers := |p.budgets|, |p.costs|;
    var empty := seq(layers + 1, _ => false);
    var table := new seq<bool>[count + 1](_ => empty);
    table[count] := empty[layers := true];
    for device := count downto 0
      invariant forall d | 0 <= d <= count :: |table[d]| == layers + 1
      invariant forall d | 0 <= d < device :: table[d] == empty
      invariant forall d, s | device <= d <= count && 0 <= s <= layers :: table[d][s] == CanPlace(p, d, s)
    {
      if p.budgets[device] >= Extra(p, device) {
        ghost var advances;
        var next := table[device + 1];
        var row;
        row, advances := FillRow(p, device, prefix, next);
        ReachesIsCanPlace(p, device, next);
        table[device] := row[..];
      } else {
        assert forall s | 0 <= s <= layers :: !CanPlace(p, device, s);
      }
    }
    feasible := table[..];
  }

  lemma ReachesIsCanPlace(p: Problem, device: nat, next: seq<bool>)
    requires device < |p.budgets| && |next| == |p.costs| + 1
    requires forall e | 0 <= e <= |p.costs| :: next[e] == CanPlace(p, device + 1, e)
    ensures forall s | 0 <= s <= |p.costs| :: Reaches(p, device, next, s) == CanPlace(p, device, s)
  {
  }

  /**
   The next cut of the greedy walk.  `take_while` stops at the first end over budget, the filter
   keeps the feasible ends, and `min_by` keeps the first of the closest.
   */
  method NextCut(p: Problem, device: nat, prefix: seq<u128>, next: seq<bool>, start: nat, totalBudget: u128,
                 cumulative: u128)
    returns (cut: nat)
    requires device < |p.budgets|
    requires |prefix| == |p.costs| + 1 == |next|
    requires forall i {:trigger prefix[i]} | 0 <= i <= |p.costs| :: prefix[i] == Span(p.costs, 0, i)
    requires Roomy(p, prefix)
    requires forall e | 0 <= e <= |p.costs| :: next[e] == CanPlace(p, device + 1, e)
    requires start <= |p.costs| && CanPlace(p, device, start)
    requires totalBudget == Total(p.budgets) && cumulative == Total(p.budgets[..device + 1])
    ensures Closest(p, device, start, cut)
  {
    var best: Option<(nat, nat)> := None;
    var end := start + 1;
    var extra: u128 := Extra(p, device);
    var totalBytes: u128 := prefix[|p.costs|] + p.output;
    while end <= |p.costs| && Charge(p, prefix, device, start, end) <= p.budgets[device]
      invariant start < end <= |p.costs| + 1
      invariant best.None? ==> forall e: nat | e < end :: !Candidate(p, device, start, e)
      invariant best.Some? ==> best.value.0 < end && Candidate(p, device, start, best.value.0)
      invariant best.Some? ==> best.value.1 == Offset(p, device, best.value.0)
      invariant best.Some? ==> forall e: nat | e < end && Candidate(p, device, start, e) ::
        best.value.1 <= Offset(p, device, e) && (e < best.value.0 ==> best.value.1 < Offset(p, device, e))
    {
      if next[end] {
        var position: u128 := prefix[end] + extra;
        var distance := AbsDiff(position * totalBudget, totalBytes * cumulative);
        if best.None? || distance < best.value.1 {
          best := Some((end, distance));
        }
      }
      end := end + 1;
    }
    forall e: nat | Candidate(p, device, start, e)
      ensures e < end
    {
      if end <= e {
        HoldsShrinks(p, device, start, end, e);
      }
    }
    ghost var some :| start < some <= |p.costs| && Holds(p, device, start, some) && CanPlace(p, device + 1, some);
    assert Candidate(p, device, start, some);
    cut := best.value.0;
  }

  /** The greedy walk.  Every step finds a cut, so the source's `expect` is unreachable. */
  method Walk(p: Problem, prefix: seq<u128>, feasible: seq<seq<bool>>, totalBudget: u128) returns (cuts: seq<nat>)
    requires |p.budgets| > 0
    requires |prefix| == |p.costs| + 1
    requires forall i {:trigger prefix[i]} | 0 <= i <= |p.costs| :: prefix[i] == Span(p.costs, 0, i)
    requires Roomy(p, prefix)
    requires |feasible| == |p.budgets| + 1
    requires forall d | 0 <= d <= |p.budgets| :: |feasible[d]| == |p.costs| + 1
    requires forall d, s | 0 <= d <= |p.budgets| && 0 <= s <= |p.costs| :: feasible[d][s] == CanPlace(p, d, s)
    requires feasible[0][0]
    requires totalBudget == Total(p.budgets)
    ensures Fits(p, cuts)
    ensures forall d | 0 <= d < |p.budgets| :: Closest(p, d, cuts[d], cuts[d + 1])
  {
    cuts := [0];
    var cumulative: u128 := 0;
    for device := 0 to |p.budgets|
      invariant |cuts| == device + 1 && cuts[0] == 0
      invariant cuts[device] <= |p.costs| && CanPlace(p, device, cuts[device])
      invariant cumulative == Total(p.budgets[..device])
      invariant forall d | 0 <= d < device :: Closest(p, d, cuts[d], cuts[d + 1])
    {
      TotalPrefix(p.budgets, device);
      assert Total(p.budgets[..device + 1]) <= totalBudget;
      cumulative := cumulative + p.budgets[device];
      var end := NextCut(p, device, prefix, feasible[device + 1], cuts[device], totalBudget, cumulative);
      cuts := cuts + [end];
    }
    forall d, e | 0 <= d < |p.budgets| && e == d + 1
      ensures cuts[d] < cuts[e] <= |p.costs| && Holds(p, d, cuts[d], cuts[e])
    {
      assert Closest(p, d, cuts[d], cuts[d + 1]);
    }
  }

  lemma {:induction false} TotalPrefix(xs: seq<nat>, n: nat)
    requires n < |xs|
    ensures Total(xs[..n + 1]) == Total(xs[..n]) + xs[n]
    ensures Total(xs[..n + 1]) <= Total(xs)
    decreases |xs| - n
  {
    assert xs[..n + 1][..n] == xs[..n];
    if n + 1 < |xs| {
      TotalPrefix(xs, n + 1);
    } else {
      assert xs[..n + 1] == xs;
    }
  }

  /** The shares `build` returns for a list of cuts: run lengths, plus one on the last device. */
  method SharesOf(p: Problem, cuts: seq<nat>) returns (shares: seq<u32>)
    requires |p.budgets| > 0 && |p.costs| <= MAX_LAYERS
    requires Fits(p, cuts)
    ensures |shares| == |p.budgets|
    ensures Cuts(shares) == cuts
  {
    shares := [];
    for device := 0 to |p.budgets|
      invariant |shares| == device
      invariant cuts[device] <= |p.costs|
      invariant forall d | 0 <= d <= device :: Total(shares[..d]) == cuts[d]
    {
      var share := cuts[device + 1] - cuts[device];
      PrefixesKept(shares, share);
      shares := shares + [share];
    }
    var last := |shares| - 1;
    BumpLast(shares, cuts);
    shares := shares[last := shares[last] + 1];
  }

  lemma PrefixesKept(xs: seq<nat>, x: nat)
    ensures forall d | 0 <= d <= |xs| :: (xs + [x])[..d] == xs[..d]
    ensures Total((xs + [x])[..|xs| + 1]) == Total(xs[..|xs|]) + x
  {
    TotalAppend(xs, x);
    assert (xs + [x])[..|xs| + 1] == xs + [x] && xs[..|xs|] == xs;
  }

  lemma BumpLast(xs: seq<nat>, cuts: seq<nat>)
    requires xs != [] && |cuts| == |xs| + 1
    requires forall d | 0 <= d <= |xs| :: Total(xs[..d]) == cuts[d]
    ensures Cuts(xs[|xs| - 1 := xs[|xs| - 1] + 1]) == cuts
  {
    var ys := xs[|xs| - 1 := xs[|xs| - 1] + 1];
    assert xs[..|xs|] == xs;
    assert Total(ys) == Total(xs) + 1 by {
      assert ys[..|ys| - 1] == xs[..|xs| - 1];
    }
    forall d | 0 <= d < |xs|
      ensures Cuts(ys)[d] == cuts[d]
    {
      assert ys[..d] == xs[..d];
    }
    assert Cuts(ys)[|xs|] == cuts[|xs|] by {
      assert Total(xs[..|xs|]) == cuts[|xs|];
      assert |ys| == |xs|;
      assert Cuts(ys)[|ys|] == SaturatingSub(Total(ys), 1);
    }
  }

  // ---------- The same, from the devices and the inventory ----------

  /** Keys and values of one layer, two bytes each. */
  function KvCharged(f: Facts, context: u32): nat
    requires f.heads > 0
  {
    ProductIsNat(2 * 2 * f.kvHeads, f.hidden / f.heads);
    ProductIsNat(2 * 2 * f.kvHeads * (f.hidden / f.heads), context);
    2 * 2 * f.kvHeads * (f.hidden / f.heads) * context
  }

  /** What a device is charged: its layers, their keys and values, and the output if it is last. */
  function Charged(inventory: Inventory, context: u32, first: nat, last: nat, output: bool): nat
    requires first <= last <= |inventory.layerBytes| && inventory.facts.heads > 0
  {
    var kv := KvCharged(inventory.facts, context);
    ProductIsNat(last - first, kv);
    Total(inventory.layerBytes[first..last]) + (last - first) * kv + if output then inventory.outputBytes else 0
  }

  /** A device that is charged anything keeps free both the reserve and a tenth of what it can use. */
  predicate KeepsFree(device: Gpu, reserve: u64, bytes: nat) {
    var usable := if device.free < device.total then device.free else device.total;
    bytes == 0 || (bytes + reserve <= usable && bytes + usable / 10 <= usable)
  }

  ghost predicate Splits(inventory: Inventory, context: u32, devices: seq<Gpu>, reserve: u64, cuts: seq<nat>)
    requires inventory.facts.heads > 0
  {
    && |cuts| == |devices| + 1 && cuts[0] == 0 && cuts[|devices|] == |inventory.layerBytes|
    && forall d, e | 0 <= d < |devices| && e == d + 1 ::
         && cuts[d] < cuts[e] <= |inventory.layerBytes|
         && KeepsFree(devices[d], reserve, Charged(inventory, context, cuts[d], cuts[e], e == |devices|))
  }

  /** A budget is the most that leaves enough free. */
  lemma BudgetIsMost(device: Gpu, reserve: u64, bytes: nat)
    ensures bytes <= Budget(device, reserve) <==> KeepsFree(device, reserve, bytes)
  {
  }

  lemma {:induction false} SpanIsCharged(inventory: Inventory, context: u32, first: nat, last: nat)
    requires Supported(inventory) && first <= last <= |inventory.layerBytes|
    ensures Span(Costs(inventory, context), first, last) == Charged(inventory, context, first, last, false)
    decreases last
  {
    var f, bytes := inventory.facts, inventory.layerBytes;
    if first < last {
      SpanIsCharged(inventory, context, first, last - 1);
      assert bytes[first..last][..last - 1 - first] == bytes[first..last - 1];
      OneMoreTimes(last - 1 - first, last - first, KvCharged(f, context));
    }
  }

  lemma OneMoreTimes(n: nat, more: nat, each: nat)
    requires more == n + 1
    ensures more * each == n * each + each
  {
  }

  lemma ChargedIsHeld(inventory: Inventory, context: u32, devices: seq<Gpu>, reserve: u64, d: nat, e: nat,
                      first: nat, last: nat)
    requires Supported(inventory) && d < e == d + 1 <= |devices| && first <= last <= |inventory.layerBytes|
    ensures Holds(ProblemOf(inventory, context, devices, reserve), d, first, last) <==>
      KeepsFree(devices[d], reserve, Charged(inventory, context, first, last, e == |devices|))
  {
    SpanIsCharged(inventory, context, first, last);
    BudgetIsMost(devices[d], reserve, Charged(inventory, context, first, last, e == |devices|));
  }

  lemma SplitsIsFits(inventory: Inventory, context: u32, devices: seq<Gpu>, reserve: u64, cuts: seq<nat>)
    requires Supported(inventory)
    ensures Splits(inventory, context, devices, reserve, cuts) <==>
      Fits(ProblemOf(inventory, context, devices, reserve), cuts)
  {
    var p := ProblemOf(inventory, context, devices, reserve);
    if Splits(inventory, context, devices, reserve, cuts) {
      forall d, e | 0 <= d < |devices| && e == d + 1
        ensures cuts[d] < cuts[e] <= |p.costs| && Holds(p, d, cuts[d], cuts[e])
      {
        ChargedIsHeld(inventory, context, devices, reserve, d, e, cuts[d], cuts[e]);
      }
      assert Fits(p, cuts);
    }
    if Fits(p, cuts) {
      forall d, e | 0 <= d < |devices| && e == d + 1
        ensures cuts[d] < cuts[e] <= |inventory.layerBytes|
        ensures KeepsFree(devices[d], reserve, Charged(inventory, context, cuts[d], cuts[e], e == |devices|))
      {
        assert cuts[d] < cuts[e] <= |p.costs| && Holds(p, d, cuts[d], cuts[e]);
        ChargedIsHeld(inventory, context, devices, reserve, d, e, cuts[d], cuts[e]);
      }
      assert Splits(inventory, context, devices, reserve, cuts);
    }
  }

  ghost predicate Accepts(inventory: Inventory, context: u32, devices: seq<Gpu>, reserve: u64) {
    && Supported(inventory)
    && CountFits(inventory, |devices|)
    && Solvable(ProblemOf(inventory, context, devices, reserve))
  }

  /**
   The planner.  It answers `Ok` exactly when some split exists, and then its shares are such a
   split, each cut the closest to proportional among those that can still be completed.
   */
  method Build(inventory: Inventory, context: u32, devices: seq<Gpu>, reserve: u64)
    returns (r: Result<seq<u32>, PlanError>)
    ensures r.Success? <==> Accepts(inventory, context, devices, reserve)
    ensures r == Failure(UnsupportedModel) <==> !Supported(inventory)
    ensures r == Failure(BadDeviceCount) <==> Supported(inventory) && !CountFits(inventory, |devices|)
    ensures r == Failure(UnsupportedModel) <==>
      var f := inventory.facts;
      || f.layers == 0 || f.layers > 4096 || f.hidden == 0 || f.heads == 0 || f.hidden % f.heads != 0
      || f.kvHeads == 0 || f.kvHeads > f.heads || |inventory.layerBytes| != f.layers
    ensures r == Failure(BadDeviceCount) ==>
      |devices| == 0 || |devices| > 63 || |devices| > inventory.facts.layers
    ensures r.Success? ==>
      inventory.facts.heads > 0 && Splits(inventory, context, devices, reserve, Cuts(r.value))
    ensures r == Failure(NoFit) ==>
      && inventory.facts.heads > 0 && 1 <= |devices| <= 63 && |devices| <= inventory.facts.layers
      && forall cuts :: !Splits(inventory, context, devices, reserve, cuts)
    ensures r.Success? ==>
      var p, cuts := ProblemOf(inventory, context, devices, reserve), Cuts(r.value);
      && Fits(p, cuts)
      && Total(r.value) == |p.costs| + 1
      && forall d | 0 <= d < |devices| :: r.value[d] >= 1 && Closest(p, d, cuts[d], cuts[d + 1])
  {
    var f := inventory.facts;
    if f.layers == 0 || f.layers > MAX_LAYERS || f.hidden == 0 || f.heads == 0 || f.hidden % f.heads != 0
      || f.kvHeads == 0 || f.kvHeads > f.heads || |inventory.layerBytes| != f.layers {
      return Failure(UnsupportedModel);
    }
    var count := |devices|;
    if count == 0 || count > MAX_DEVICES || count > f.layers {
      return Failure(BadDeviceCount);
    }
    var p := ProblemOf(inventory, context, devices, reserve);
    KvBounded(f, context);
    var prefix := PrefixSums(inventory.layerBytes, KvPerLayer(f, context), p.costs);
    var feasible := FillTable(p, prefix);
    if !feasible[0][0] {
      forall cuts ensures !Fits(p, cuts) {
        if Fits(p, cuts) {
          FitsGivesPlacement(p, cuts, 0);
        }
      }
      forall cuts ensures !Splits(inventory, context, devices, reserve, cuts) {
        SplitsIsFits(inventory, context, devices, reserve, cuts);
      }
      return Failure(NoFit);
    }
    TotalBounded(p.budgets, 0xffff_ffff_ffff_ffff);
    var cuts := Walk(p, prefix, feasible, Total(p.budgets));
    var shares := SharesOf(p, cuts);
    SharesArePositive(p, shares);
    SplitsIsFits(inventory, context, devices, reserve, Cuts(shares));
    return Success(shares);
  }

  lemma KvBounded(f: Facts, context: u32)
    requires f.heads > 0 && 0 < f.kvHeads
    ensures KvPerLayer(f, context) < 0x4_0000_0000_0000_0000_0000_0000
  {
    var dim := f.hidden / f.heads;
    assert dim <= f.hidden by { DivShrinks(f.hidden, f.heads); }
    MulBound(4 * f.kvHeads, dim, 0x3_ffff_fffc, 0xffff_ffff);
    MulBound(4 * f.kvHeads * dim, context, 0x3_ffff_fffc * 0xffff_ffff, 0xffff_ffff);
  }

  lemma MulBound(a: nat, b: nat, most: nat, least: nat)
    requires a <= most && b <= least
    ensures a * b <= most * least
  {
    assert a * b <= a * least <= most * least;
  }

  lemma DivShrinks(a: nat, b: nat)
    requires b > 0
    ensures a / b <= a
  {
    var q := a / b;
    assert a == q * b + a % b;
    MulBound(q, 1, q, b);
  }

  lemma SharesArePositive(p: Problem, shares: seq<u32>)
    requires |shares| == |p.budgets| > 0
    requires Fits(p, Cuts(shares))
    ensures forall d | 0 <= d < |shares| :: shares[d] >= 1
    ensures Total(shares) == |p.costs| + 1
  {
    var cuts := Cuts(shares);
    forall d | 0 <= d < |shares|
      ensures shares[d] >= 1
    {
      TotalPrefix(shares, d);
      assert cuts[d] < cuts[d + 1];
      assert shares[..|shares|] == shares;
    }
  }

  // ---------- What the plan does not depend on ----------

  /**
   The bytes used up to a cut, and the part of all bytes that the budgets up to the device have, times all
   budgets.
   */
  function UsedUpTo(p: Problem, device: nat, end: nat): nat
    requires end <= |p.costs|
  {
    Total(p.costs[..end]) + if device == |p.budgets| - 1 then p.output else 0
  }

  function ScaledTarget(p: Problem, device: nat): nat
    requires device < |p.budgets|
  {
    ProductIsNat(Total(p.costs) + p.output, Total(p.budgets[..device + 1]));
    (Total(p.costs) + p.output) * Total(p.budgets[..device + 1])
  }

  lemma {:induction false} SpanIsTotal(costs: seq<nat>, end: nat)
    requires end <= |costs|
    ensures Span(costs, 0, end) == Total(costs[..end])
  {
    if end > 0 {
      SpanIsTotal(costs, end - 1);
      assert costs[..end][..end - 1] == costs[..end - 1];
    }
  }

  lemma OffsetIsScaled(p: Problem, device: nat, end: nat)
    requires device < |p.budgets| && end <= |p.costs|
    ensures Offset(p, device, end) == AbsDiff(UsedUpTo(p, device, end) * Total(p.budgets), ScaledTarget(p, device))
  {
    SpanIsTotal(p.costs, end);
    SpanIsTotal(p.costs, |p.costs|);
    assert p.costs[..|p.costs|] == p.costs;
  }

  /** How far the bytes used are from that part, times all budgets. */
  function FromTarget(p: Problem, device: nat, end: nat): nat
    requires device < |p.budgets| && end <= |p.costs|
  {
    var used, target := UsedUpTo(p, device, end) * Total(p.budgets), ScaledTarget(p, device);
    if used < target then target - used else used - target
  }

  /**
   The cut taken is the first of those whose bytes come closest to the budgets' part of all bytes.  The
   source divides by all budgets and so rounds; here both sides are multiplied by them instead.
   */
  lemma ClosestIsProportional(p: Problem, device: nat, start: nat, cut: nat, end: nat)
    requires device < |p.budgets| && Closest(p, device, start, cut) && Candidate(p, device, start, end)
    ensures FromTarget(p, device, cut) <= FromTarget(p, device, end)
    ensures end < cut ==> FromTarget(p, device, cut) < FromTarget(p, device, end)
  {
    OffsetIsScaled(p, device, cut);
    OffsetIsScaled(p, device, end);
  }

  /**
   Any walk that always takes some candidate yields a valid plan, so rounding in the source's
   floating-point target can change which plan is chosen but never whether it fits.
   */
  lemma AnyChoiceFits(p: Problem, cuts: seq<nat>)
    requires |cuts| == |p.budgets| + 1 && cuts[0] == 0 && |p.budgets| > 0
    requires forall d | 0 <= d < |p.budgets| :: Candidate(p, d, cuts[d], cuts[d + 1])
    ensures Fits(p, cuts)
  {
    forall d, e | 0 <= d < |p.budgets| && e == d + 1
      ensures cuts[d] < cuts[e] <= |p.costs| && Holds(p, d, cuts[d], cuts[e])
    {
      assert Candidate(p, d, cuts[d], cuts[d + 1]);
    }
    assert Candidate(p, |p.budgets| - 1, cuts[|p.budgets| - 1], cuts[|p.budgets| - 1 + 1]);
  }

  lemma {:induction false} SpanMonotone(costs: seq<nat>, lighter: seq<nat>, start: nat, end: nat)
    requires |costs| == |lighter| && start <= end <= |costs|
    requires forall i | 0 <= i < |costs| :: lighter[i] <= costs[i]
    ensures Span(lighter, start, end) <= Span(costs, start, end)
    decreases end
  {
    if start < end {
      SpanMonotone(costs, lighter, start, end - 1);
    }
  }

  lemma BudgetMonotone(device: Gpu, roomier: Gpu, reserve: u64, smaller: u64)
    requires device.free <= roomier.free && device.total <= roomier.total
    requires smaller <= reserve
    ensures Budget(device, reserve) <= Budget(roomier, smaller)
  {
  }

  /** Freeing memory, lowering the reserve or shortening the context never turns a plan away. */
  lemma AcceptanceMonotone(inventory: Inventory, context: u32, devices: seq<Gpu>, reserve: u64,
                           shorter: u32, roomier: seq<Gpu>, smaller: u64)
    requires Accepts(inventory, context, devices, reserve)
    requires shorter <= context && smaller <= reserve && |roomier| == |devices|
    requires forall d | 0 <= d < |devices| :: devices[d].free <= roomier[d].free && devices[d].total <= roomier[d].total
    ensures Accepts(inventory, shorter, roomier, smaller)
  {
    var p, q := ProblemOf(inventory, context, devices, reserve), ProblemOf(inventory, shorter, roomier, smaller);
    var cuts :| Fits(p, cuts);
    var f := inventory.facts;
    MulBound(4 * f.kvHeads * (f.hidden / f.heads), shorter, 4 * f.kvHeads * (f.hidden / f.heads), context);
    forall d, e | 0 <= d < |q.budgets| && e == d + 1
      ensures cuts[d] < cuts[e] <= |q.costs| && Holds(q, d, cuts[d], cuts[e])
    {
      assert Holds(p, d, cuts[d], cuts[e]);
      SpanMonotone(p.costs, q.costs, cuts[d], cuts[e]);
      BudgetMonotone(devices[d], roomier[d], reserve, smaller);
    }
    assert Fits(q, cuts);
  }
}
