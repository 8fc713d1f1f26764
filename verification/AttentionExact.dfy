/**
 What a layer computes is what it means: masks show each query its own prefix, and from the cache
 of earlier rows a step returns the rows of a run from scratch
 (crates/lattice-engine/src/llama.rs).
 */
module AttentionExact {
  import opened Wrappers
  import opened Vectors
  import Experts
  import opened Attention

  /** Everything from `visible` on is hidden, and nothing before it. */
  ghost predicate HidesFrom(hidden: seq<bool>, visible: nat) {
    forall j | 0 <= j < |hidden| :: hidden[j] <==> j >= visible
  }

  lemma {:induction false} MaskedIsPrefix(l: Layer, h: nat, q: Vec, kv: seq<Entry>, hidden: seq<bool>, visible: nat,
                                          n: nat)
    requires |hidden| == |kv| && n <= |kv| && visible <= |kv|
    requires HidesFrom(hidden, visible)
    ensures var seen := kv[..if n < visible then n else visible];
      && MaskedSum(l, h, q, kv, hidden, n) == PlainSum(l, h, q, seen)
      && MaskedTotal(l, h, q, kv, hidden, n) == PlainTotal(l, h, q, seen)
  {
    if n > 0 {
      MaskedIsPrefix(l, h, q, kv, hidden, visible, n - 1);
      if n <= visible {
        assert kv[..n][..n - 1] == kv[..n - 1];
      } else {
        AddZero(MaskedSum(l, h, q, kv, hidden, n - 1), ValueOf(l, h, kv[n - 1]));
      }
    }
  }

  lemma HeadSeesPrefix(l: Layer, h: nat, q: Vec, kv: seq<Entry>, hidden: seq<bool>, visible: nat)
    requires |hidden| == |kv| && visible <= |kv| && HidesFrom(hidden, visible)
    ensures MaskedHead(l, h, q, kv, hidden) == Head(l, h, q, kv[..visible])
  {
    MaskedIsPrefix(l, h, q, kv, hidden, visible, |kv|);
  }

  lemma HeadsSeePrefix(l: Layer, q: Vec, kv: seq<Entry>, hidden: seq<bool>, visible: nat)
    requires |hidden| == |kv| && visible <= |kv| && HidesFrom(hidden, visible)
    ensures MaskedHeads(l, q, kv, hidden) == Heads(l, q, kv[..visible])
  {
    forall h: nat | h < l.heads
      ensures MaskedHead(l, h, q, kv, hidden) == Head(l, h, q, kv[..visible])
    {
      HeadSeesPrefix(l, h, q, kv, hidden, visible);
    }
  }

  /** What a layer's cache holds after rows `xs`: nothing before the first, then every row's entry. */
  function CacheOf(l: Layer, xs: seq<Vec>): Cache {
    if xs == [] then None else Some(Entries(l, xs, 0))
  }

  /** Rows already run are not affected by rows that come later. */
  lemma Causal(l: Layer, xs: seq<Vec>, ys: seq<Vec>)
    requires l.Valid()
    ensures LayerMeaning(l, xs + ys)[..|xs|] == LayerMeaning(l, xs)
  {
    forall i | 0 <= i < |xs|
      ensures LayerMeaning(l, xs + ys)[i] == LayerMeaning(l, xs)[i]
    {
      assert (xs + ys)[..i + 1] == xs[..i + 1];
    }
  }

  /** Query `i` sees exactly the columns up to its own absolute position. */
  lemma StepMaskIsCausal(seqLen: nat, pos: nat, i: nat)
    requires i < seqLen
    ensures MaskShaped(StepMask(seqLen, pos), seqLen, pos + seqLen)
    ensures var hidden := HiddenRow(StepMask(seqLen, pos), pos + seqLen, i);
      |hidden| == pos + seqLen && HidesFrom(hidden, pos + i + 1)
  {
  }

  lemma EntriesPrefix(l: Layer, xs: seq<Vec>, n: nat)
    requires n <= |xs|
    ensures Entries(l, xs, 0)[..n] == Entries(l, xs[..n], 0)
  {
  }

  /** Attention under a mask row that hides everything from `visible` on is attention over the prefix. */
  lemma AttendedRowIs(l: Layer, kv: seq<Entry>, ys: seq<Vec>, pos: nat, mask: Option<Mask>, i: nat, visible: nat)
    requires i < |ys| && MaskShaped(mask, |ys|, |kv|) && visible <= |kv|
    requires HidesFrom(HiddenRow(mask, |kv|, i), visible)
    ensures AttendedRow(l, kv, ys, pos, mask, i)
      == Residual(l, ys[i], Attend(l, Query(l, ys[i], pos + i), kv[..visible]))
  {
    HeadsSeePrefix(l, Query(l, ys[i], pos + i), kv, HiddenRow(mask, |kv|, i), visible);
  }

  lemma RowExact(l: Layer, rows: seq<Vec>, kv: seq<Entry>, ys: seq<Vec>, pos: nat, mask: Option<Mask>, i: nat)
    requires i < |ys| && pos + i < |rows| && ys[i] == rows[pos + i] && kv == Entries(l, rows, 0)
    requires MaskShaped(mask, |ys|, |kv|) && HidesFrom(HiddenRow(mask, |kv|, i), pos + i + 1)
    ensures AttendedRow(l, kv, ys, pos, mask, i) == AttendedMeaning(l, rows, pos + i)
  {
    AttendedRowIs(l, kv, ys, pos, mask, i, pos + i + 1);
    EntriesPrefix(l, rows, pos + i + 1);
  }

  /** Appending to the cache of `xs` makes the cache of everything. */
  lemma ExtendedExact(l: Layer, xs: seq<Vec>, ys: seq<Vec>)
    ensures Extended(l, CacheOf(l, xs), ys, |xs|) == Entries(l, xs + ys, 0)
  {
    if xs == [] {
      assert xs + ys == ys;
    }
  }

  /**
   From the cache left by `xs`, running `ys` at position `|xs|` gives exactly the rows that running
   everything from scratch gives, and leaves the cache of everything.
   */
  lemma LayerExact(l: Layer, xs: seq<Vec>, ys: seq<Vec>)
    requires l.Valid() && ys != [] && |xs| + |ys| <= MAX_SEQ_LEN
    ensures LayerStep(l, CacheOf(l, xs), ys, |xs|, StepMask(|ys|, |xs|))
      == (Some(LayerMeaning(l, xs + ys)[|xs|..]), CacheOf(l, xs + ys))
  {
    ExtendedExact(l, xs, ys);
    StepMaskIsCausal(|ys|, |xs|, 0);
    OutputExact(l, xs, ys);
  }

  /** Row by row, what the code makes of the attended rows is what they mean. */
  lemma OutputExact(l: Layer, xs: seq<Vec>, ys: seq<Vec>)
    requires l.Valid() && MaskShaped(StepMask(|ys|, |xs|), |ys|, |xs| + |ys|)
    ensures OutputRows(l, Entries(l, xs + ys, 0), ys, |xs|, StepMask(|ys|, |xs|)) == LayerMeaning(l, xs + ys)[|xs|..]
  {
    var rows := OutputRows(l, Entries(l, xs + ys, 0), ys, |xs|, StepMask(|ys|, |xs|));
    var meant := LayerMeaning(l, xs + ys);
    forall i | 0 <= i < |ys|
      ensures rows[i] == meant[|xs| + i]
    {
      StepMaskIsCausal(|ys|, |xs|, i);
      OutputRowExact(l, xs + ys, Entries(l, xs + ys, 0), ys, |xs|, StepMask(|ys|, |xs|), i);
    }
  }

  lemma OutputRowExact(l: Layer, rows: seq<Vec>, kv: seq<Entry>, ys: seq<Vec>, pos: nat, mask: Option<Mask>, i: nat)
    requires l.Valid() && i < |ys| && pos + i < |rows| && ys[i] == rows[pos + i] && kv == Entries(l, rows, 0)
    requires MaskShaped(mask, |ys|, |kv|) && HidesFrom(HiddenRow(mask, |kv|, i), pos + i + 1)
    ensures OutputRows(l, kv, ys, pos, mask)[i] == LayerMeaning(l, rows)[pos + i]
  {
    RowExact(l, rows, kv, ys, pos, mask, i);
  }

  // ---------- What that is, coordinate by coordinate ----------

  function Sum(f: nat -> real, n: nat): real {
    if n == 0 then 0.0 else Sum(f, n - 1) + f(n - 1)
  }

  /** How head `h` of row `i` weighs row `j`: query and key are each rotated at the position of their own row. */
  function Weighs(l: Layer, xs: seq<Vec>, h: nat, i: nat): nat -> real
    requires i < |xs|
  {
    (j: nat) =>
      if j >= |xs| then 0.0
      else
        l.weight(l.slice(l.rope(l.wq(l.attnNorm(xs[i])), i), h),
                 l.slice(l.rope(l.wk(l.attnNorm(xs[j])), j), l.group(h)))
  }

  /** The same times coordinate `c` of row `j`'s value. */
  function Weighted(l: Layer, xs: seq<Vec>, h: nat, i: nat, c: nat): nat -> real
    requires i < |xs|
  {
    (j: nat) =>
      if j >= |xs| then 0.0
      else At(Scale(Weighs(l, xs, h, i)(j), l.slice(l.wv(l.attnNorm(xs[j])), l.group(h))), c)
  }

  /** Softmax attention of row `i` over rows `0..=i`. */
  function SoftmaxAttention(l: Layer, xs: seq<Vec>, h: nat, i: nat, c: nat): real
    requires i < |xs|
  {
    Over(Sum(Weighted(l, xs, h, i, c), i + 1), Sum(Weighs(l, xs, h, i), i + 1))
  }

  function Over(sum: real, total: real): real {
    if total == 0.0 then sum else (1.0 / total) * sum
  }

  lemma NormaliseIsOver(sum: Vec, total: real, c: nat)
    requires c < |sum|
    ensures |Normalise(sum, total)| == |sum| && Normalise(sum, total)[c] == Over(sum[c], total)
  {
  }

  lemma {:induction false} TotalIsSum(l: Layer, xs: seq<Vec>, h: nat, i: nat, n: nat)
    requires i < |xs| && n <= |xs|
    ensures PlainTotal(l, h, Query(l, xs[i], i), Entries(l, xs, 0)[..n]) == Sum(Weighs(l, xs, h, i), n)
  {
    if n > 0 {
      TotalIsSum(l, xs, h, i, n - 1);
      EntriesOneMore(l, xs, n - 1, n);
    }
  }

  lemma EntriesOneMore(l: Layer, xs: seq<Vec>, n: nat, more: nat)
    requires n < more == n + 1 <= |xs|
    ensures var kv := Entries(l, xs, 0)[..more];
      |kv| == more && kv[..n] == Entries(l, xs, 0)[..n] && kv[n] == EntryOf(l, xs[n], n)
  {
  }

  lemma {:induction false} SumIsSum(l: Layer, xs: seq<Vec>, h: nat, i: nat, c: nat, n: nat)
    requires i < |xs| && n <= |xs| && c < l.width
    ensures var sum := PlainSum(l, h, Query(l, xs[i], i), Entries(l, xs, 0)[..n]);
      |sum| == l.width && sum[c] == Sum(Weighted(l, xs, h, i, c), n)
  {
    if n > 0 {
      SumIsSum(l, xs, h, i, c, n - 1);
      EntriesOneMore(l, xs, n - 1, n);
    }
  }

  lemma HeadIsAttention(l: Layer, xs: seq<Vec>, h: nat, i: nat, c: nat)
    requires i < |xs| && c < l.width
    ensures var head := Head(l, h, Query(l, xs[i], i), Entries(l, xs[..i + 1], 0));
      |head| == l.width && head[c] == SoftmaxAttention(l, xs, h, i, c)
  {
    EntriesPrefix(l, xs, i + 1);
    TotalIsSum(l, xs, h, i, i + 1);
    SumIsSum(l, xs, h, i, c, i + 1);
    var q, kv := Query(l, xs[i], i), Entries(l, xs[..i + 1], 0);
    NormaliseIsOver(PlainSum(l, h, q, kv), PlainTotal(l, h, q, kv), c);
  }

  /** The heads stand end to end in their order. */
  lemma {:induction false} FlatColumns(heads: seq<Vec>, width: nat, h: nat, c: nat)
    requires (forall k | 0 <= k < |heads| :: |heads[k]| == width) && h < |heads| && c < width
    ensures |Flat(heads)| == |heads| * width && h * width + c < |heads| * width
    ensures Flat(heads)[h * width + c] == heads[h][c]
  {
    var init := heads[..|heads| - 1];
    FlatLength(init, width);
    assert |heads| * width == |init| * width + width;
    if h < |init| {
      FlatColumns(init, width, h, c);
    }
  }

  lemma {:induction false} FlatLength(heads: seq<Vec>, width: nat)
    requires forall k | 0 <= k < |heads| :: |heads[k]| == width
    ensures |Flat(heads)| == |heads| * width
  {
    if heads != [] {
      FlatLength(heads[..|heads| - 1], width);
      assert |heads| * width == (|heads| - 1) * width + width;
    }
  }

  /** Coordinate `c` of head `h` is softmax attention over all rows up to row `i`. */
  ghost predicate AreAttention(l: Layer, xs: seq<Vec>, i: nat, heads: seq<Vec>)
    requires i < |xs|
  {
    && |heads| == l.heads
    && (forall h | 0 <= h < |heads| :: |heads[h]| == l.width)
    && forall h, c | 0 <= h < |heads| && 0 <= c < |heads[h]| :: heads[h][c] == SoftmaxAttention(l, xs, h, i, c)
  }

  lemma HeadsAreAttention(l: Layer, xs: seq<Vec>, i: nat)
    requires i < |xs|
    ensures AreAttention(l, xs, i, Heads(l, Query(l, xs[i], i), Entries(l, xs[..i + 1], 0)))
  {
    var heads := Heads(l, Query(l, xs[i], i), Entries(l, xs[..i + 1], 0));
    forall h | 0 <= h < |heads|
      ensures |heads[h]| == l.width
    {
      HeadLength(l, h, Query(l, xs[i], i), Entries(l, xs[..i + 1], 0));
    }
    forall h, c | 0 <= h < |heads| && 0 <= c < |heads[h]|
      ensures heads[h][c] == SoftmaxAttention(l, xs, h, i, c)
    {
      HeadIsAttention(l, xs, h, i, c);
    }
  }

  lemma HeadLength(l: Layer, h: nat, q: Vec, kv: seq<Entry>)
    ensures |Head(l, h, q, kv)| == l.width
  {
    PlainLength(l, h, q, kv);
  }

  lemma {:induction false} PlainLength(l: Layer, h: nat, q: Vec, kv: seq<Entry>)
    ensures |PlainSum(l, h, q, kv)| == l.width
  {
    if kv != [] {
      PlainLength(l, h, q, kv[..|kv| - 1]);
    }
  }

  /**
   A row of a layer, from the layer's own parts: the attention of its heads, end to end, goes through
   the output projection onto the row, and the result through the network onto itself.
   */
  lemma LayerByDefinition(l: Layer, xs: seq<Vec>, i: nat) returns (heads: seq<Vec>)
    requires l.Valid() && i < |xs|
    ensures AreAttention(l, xs, i, heads)
    ensures var row := Add(l.wo(Flat(heads)), xs[i]);
      LayerMeaning(l, xs)[i] == Add(Experts.PerToken(l.ffn, l.ffnNorm(row)), row)
  {
    heads := Heads(l, Query(l, xs[i], i), Entries(l, xs[..i + 1], 0));
    HeadsAreAttention(l, xs, i);
  }

  // ---------- Positions enter by distance alone ----------

  /** How head `h` weighs a key standing at `j` for a query standing at `i`. */
  function Match(l: Layer, h: nat, query: Vec, i: nat, key: Vec, j: nat): real {
    l.weight(l.slice(l.rope(query, i), h), l.slice(l.rope(key, j), l.group(h)))
  }

  /** As for a rotary embedding: moving query and key on together does not change the weight. */
  ghost predicate ByDistance(l: Layer) {
    forall h: nat, query: Vec, key: Vec, i: nat, j: nat, i': nat, j': nat | j <= i && i' - i == j' - j ::
      Match(l, h, query, i, key, j) == Match(l, h, query, i', key, j')
  }

  lemma {:induction false} SamePlain(l: Layer, h: nat, q: Vec, kv: seq<Entry>, q': Vec, kv': seq<Entry>)
    requires |kv| == |kv'|
    requires forall j | 0 <= j < |kv| ::
      Score(l, h, q, kv[j]) == Score(l, h, q', kv'[j]) && ValueOf(l, h, kv[j]) == ValueOf(l, h, kv'[j])
    ensures PlainSum(l, h, q, kv) == PlainSum(l, h, q', kv') && PlainTotal(l, h, q, kv) == PlainTotal(l, h, q', kv')
  {
    if kv != [] {
      SamePlain(l, h, q, kv[..|kv| - 1], q', kv'[..|kv'| - 1]);
    }
  }

  lemma ShiftedScore(l: Layer, h: nat, x: Vec, y: Vec, i: nat, j: nat, shift: nat)
    requires ByDistance(l) && j <= i
    ensures Score(l, h, Query(l, x, i + shift), EntryOf(l, y, shift + j))
        == Score(l, h, Query(l, x, i), EntryOf(l, y, j))
  {
    var query, key := l.wq(l.attnNorm(x)), l.wk(l.attnNorm(y));
    assert Match(l, h, query, i, key, j) == Match(l, h, query, i + shift, key, shift + j);
  }

  lemma ShiftedHead(l: Layer, h: nat, x: Vec, rows: seq<Vec>, at: nat, shift: nat)
    requires ByDistance(l) && at < |rows|
    ensures Head(l, h, Query(l, x, at + shift), Entries(l, rows, shift)[..at + 1])
      == Head(l, h, Query(l, x, at), Entries(l, rows, 0)[..at + 1])
  {
    var moved, still := Entries(l, rows, shift)[..at + 1], Entries(l, rows, 0)[..at + 1];
    forall j | 0 <= j < at + 1
      ensures Score(l, h, Query(l, x, at + shift), moved[j]) == Score(l, h, Query(l, x, at), still[j])
      ensures ValueOf(l, h, moved[j]) == ValueOf(l, h, still[j])
    {
      ShiftedScore(l, h, x, rows[j], at, j, shift);
    }
    SamePlain(l, h, Query(l, x, at + shift), moved, Query(l, x, at), still);
  }

  lemma ShiftedAttend(l: Layer, x: Vec, rows: seq<Vec>, at: nat, later: nat, shift: nat, visible: nat)
    requires ByDistance(l) && at < |rows| && later == at + shift && visible == at + 1
    ensures Attend(l, Query(l, x, later), Entries(l, rows, shift)[..visible])
      == Attend(l, Query(l, x, at), Entries(l, rows, 0)[..visible])
  {
    var moved := Heads(l, Query(l, x, later), Entries(l, rows, shift)[..visible]);
    var still := Heads(l, Query(l, x, at), Entries(l, rows, 0)[..visible]);
    forall h | 0 <= h < l.heads
      ensures moved[h] == still[h]
    {
      ShiftedHead(l, h, x, rows, at, shift);
    }
    assert moved == still;
  }

  lemma SameAttended(l: Layer, kv: seq<Entry>, pos: nat, q: Vec, kv': seq<Entry>, pos': nat, q': Vec, ys: seq<Vec>,
                     mask: Option<Mask>, i: nat, visible: nat)
    requires i < |ys| && |kv| == |kv'| && visible <= |kv| && MaskShaped(mask, |ys|, |kv|)
    requires HidesFrom(HiddenRow(mask, |kv|, i), visible)
    requires q == Query(l, ys[i], pos + i) && q' == Query(l, ys[i], pos' + i)
    requires Attend(l, q, kv[..visible]) == Attend(l, q', kv'[..visible])
    ensures AttendedRow(l, kv, ys, pos, mask, i) == AttendedRow(l, kv', ys, pos', mask, i)
  {
    AttendedRowIs(l, kv, ys, pos, mask, i, visible);
    AttendedRowIs(l, kv', ys, pos', mask, i, visible);
  }

  lemma SameOutput(l: Layer, kv: seq<Entry>, pos: nat, kv': seq<Entry>, pos': nat, ys: seq<Vec>, mask: Option<Mask>)
    requires l.Valid() && |kv| == |kv'| && MaskShaped(mask, |ys|, |kv|)
    requires forall i | 0 <= i < |ys| :: AttendedRow(l, kv, ys, pos, mask, i) == AttendedRow(l, kv', ys, pos', mask, i)
    ensures OutputRows(l, kv, ys, pos, mask) == OutputRows(l, kv', ys, pos', mask)
  {
  }

  lemma ShiftedRow(l: Layer, rows: seq<Vec>, ys: seq<Vec>, pos: nat, later: nat, shift: nat, mask: Option<Mask>, i: nat,
                   visible: nat)
    requires ByDistance(l) && |rows| == pos + |ys| && MaskShaped(mask, |ys|, |rows|) && i < |ys|
    requires later == pos + shift && visible == pos + i + 1 && HidesFrom(HiddenRow(mask, |rows|, i), visible)
    ensures AttendedRow(l, Entries(l, rows, shift), ys, later, mask, i)
      == AttendedRow(l, Entries(l, rows, 0), ys, pos, mask, i)
  {
    var q, q' := Query(l, ys[i], later + i), Query(l, ys[i], pos + i);
    ShiftedAttend(l, ys[i], rows, pos + i, later + i, shift, visible);
    SameAttended(l, Entries(l, rows, shift), later, q, Entries(l, rows, 0), pos, q', ys, mask, i, visible);
  }

  /** A text that starts at a later position gives the same rows, if query and key rotate alike. */
  lemma OnlyDistanceMatters(l: Layer, rows: seq<Vec>, ys: seq<Vec>, pos: nat, shift: nat, mask: Option<Mask>)
    requires l.Valid() && ByDistance(l) && |rows| == pos + |ys| && MaskShaped(mask, |ys|, |rows|)
    requires forall i | 0 <= i < |ys| :: HidesFrom(HiddenRow(mask, |rows|, i), pos + i + 1)
    ensures OutputRows(l, Entries(l, rows, shift), ys, pos + shift, mask)
      == OutputRows(l, Entries(l, rows, 0), ys, pos, mask)
  {
    var moved, still, later := Entries(l, rows, shift), Entries(l, rows, 0), pos + shift;
    forall i | 0 <= i < |ys|
      ensures AttendedRow(l, moved, ys, later, mask, i) == AttendedRow(l, still, ys, pos, mask, i)
    {
      ShiftedRow(l, rows, ys, pos, later, shift, mask, i, pos + i + 1);
    }
    SameOutput(l, moved, later, still, pos, ys, mask);
  }
}
