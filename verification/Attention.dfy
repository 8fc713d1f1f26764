/**
 One transformer layer over a key/value prefix.

 Norms, projections, rotary embedding and the exponential of a scaled dot product are arbitrary
 functions of one row (the rotary embedding also of the absolute position), and so is the part of a
 vector that belongs to a head.  Attention itself is spelled out, head by head: a weighted sum of the
 visible values over the sum of their weights, the heads end to end.  `LayerMeaning`
 is the textbook definition, from scratch and with no mask or cache; `LayerStep` is what
 `forward_attn` and the layer body of `forward` compute (crates/lattice-engine/src/llama.rs).
 */
module Attention {
  import opened Wrappers
  import opened Vectors
  import opened Experts

  const MAX_SEQ_LEN := 4096

  datatype Entry = Entry(key: Vec, value: Vec)

  /** `slice` is a head's part of a query, key or value; `group` is the key/value head a query head shares. */
  datatype Layer = Layer(
    heads: nat, width: nat, slice: (Vec, nat) -> Vec, group: nat -> nat,
    attnNorm: Vec -> Vec, wq: Vec -> Vec, wk: Vec -> Vec, wv: Vec -> Vec, wo: Vec -> Vec,
    rope: (Vec, nat) -> Vec,
    weight: (Vec, Vec) -> real,
    ffnNorm: Vec -> Vec, ffn: Ffn)
  {
    ghost predicate Valid() {
      ffn.Valid()
    }
  }

  type Cache = Option<seq<Entry>>
  type Mask = seq<seq<bool>>

  // ---------- Shared pieces, row by row ----------

  function Query(l: Layer, x: Vec, pos: nat): Vec {
    l.rope(l.wq(l.attnNorm(x)), pos)
  }

  function EntryOf(l: Layer, x: Vec, pos: nat): Entry {
    Entry(l.rope(l.wk(l.attnNorm(x)), pos), l.wv(l.attnNorm(x)))
  }

  /** The entries of consecutive rows starting at an absolute position. */
  function Entries(l: Layer, xs: seq<Vec>, start: nat): (kv: seq<Entry>)
    ensures |kv| == |xs|
  {
    seq(|xs|, i requires 0 <= i < |xs| => EntryOf(l, xs[i], start + i))
  }

  /** How much query head `h` weighs an entry. */
  function Score(l: Layer, h: nat, q: Vec, e: Entry): real {
    l.weight(l.slice(q, h), l.slice(e.key, l.group(h)))
  }

  function ValueOf(l: Layer, h: nat, e: Entry): Vec {
    l.slice(e.value, l.group(h))
  }

  /** Softmax's division; the guard only makes the function total. */
  function Normalise(sum: Vec, total: real): Vec {
    if total == 0.0 then sum else Scale(1.0 / total, sum)
  }

  function Residual(l: Layer, x: Vec, attended: Vec): Vec {
    Add(l.wo(attended), x)
  }

  function Output(l: Layer, h: Vec): Vec
    requires l.Valid()
  {
    Add(PerToken(l.ffn, l.ffnNorm(h)), h)
  }

  // ---------- The meaning of a layer ----------

  function PlainSum(l: Layer, h: nat, q: Vec, kv: seq<Entry>): Vec {
    if kv == [] then Zeros(l.width)
    else
      var e := kv[|kv| - 1];
      Add(PlainSum(l, h, q, kv[..|kv| - 1]), Scale(Score(l, h, q, e), ValueOf(l, h, e)))
  }

  function PlainTotal(l: Layer, h: nat, q: Vec, kv: seq<Entry>): real {
    if kv == [] then 0.0 else PlainTotal(l, h, q, kv[..|kv| - 1]) + Score(l, h, q, kv[|kv| - 1])
  }

  function Head(l: Layer, h: nat, q: Vec, kv: seq<Entry>): Vec {
    Normalise(PlainSum(l, h, q, kv), PlainTotal(l, h, q, kv))
  }

  function Heads(l: Layer, q: Vec, kv: seq<Entry>): seq<Vec> {
    seq(l.heads, h requires 0 <= h => Head(l, h, q, kv))
  }

  /** The heads end to end. */
  function Flat(heads: seq<Vec>): Vec {
    if heads == [] then [] else Flat(heads[..|heads| - 1]) + heads[|heads| - 1]
  }

  function Attend(l: Layer, q: Vec, kv: seq<Entry>): Vec {
    Flat(Heads(l, q, kv))
  }

  /** Row `i` of a layer run from scratch: it attends to rows `0..=i` and to nothing else. */
  function AttendedMeaning(l: Layer, xs: seq<Vec>, i: nat): Vec
    requires i < |xs|
  {
    Residual(l, xs[i], Attend(l, Query(l, xs[i], i), Entries(l, xs[..i + 1], 0)))
  }

  function RowMeaning(l: Layer, xs: seq<Vec>, i: nat): Vec
    requires l.Valid() && i < |xs|
  {
    Output(l, AttendedMeaning(l, xs, i))
  }

  function LayerMeaning(l: Layer, xs: seq<Vec>): (ys: seq<Vec>)
    requires l.Valid()
    ensures |ys| == |xs|
  {
    seq(|xs|, i requires 0 <= i < |xs| => RowMeaning(l, xs, i))
  }

  // ---------- What the code computes ----------

  /** `build_causal_mask`: true hides the column. */
  function CausalMask(seqLen: nat, pos: nat): Mask {
    seq(seqLen, i => seq(pos + seqLen, j => j > pos + i))
  }

  /** A masked column is filled with negative infinity, so its weight is zero. */
  function MaskedWeight(l: Layer, h: nat, q: Vec, kv: seq<Entry>, hidden: seq<bool>, j: nat): real
    requires |hidden| == |kv| && j < |kv|
  {
    if hidden[j] then 0.0 else Score(l, h, q, kv[j])
  }

  function MaskedSum(l: Layer, h: nat, q: Vec, kv: seq<Entry>, hidden: seq<bool>, n: nat): Vec
    requires |hidden| == |kv| && n <= |kv|
  {
    if n == 0 then Zeros(l.width)
    else
      Add(MaskedSum(l, h, q, kv, hidden, n - 1),
          Scale(MaskedWeight(l, h, q, kv, hidden, n - 1), ValueOf(l, h, kv[n - 1])))
  }

  function MaskedTotal(l: Layer, h: nat, q: Vec, kv: seq<Entry>, hidden: seq<bool>, n: nat): real
    requires |hidden| == |kv| && n <= |kv|
  {
    if n == 0 then 0.0 else MaskedTotal(l, h, q, kv, hidden, n - 1) + MaskedWeight(l, h, q, kv, hidden, n - 1)
  }

  function MaskedHead(l: Layer, h: nat, q: Vec, kv: seq<Entry>, hidden: seq<bool>): Vec
    requires |hidden| == |kv|
  {
    Normalise(MaskedSum(l, h, q, kv, hidden, |kv|), MaskedTotal(l, h, q, kv, hidden, |kv|))
  }

  function MaskedHeads(l: Layer, q: Vec, kv: seq<Entry>, hidden: seq<bool>): seq<Vec>
    requires |hidden| == |kv|
  {
    seq(l.heads, h requires 0 <= h => MaskedHead(l, h, q, kv, hidden))
  }

  function MaskedAttend(l: Layer, q: Vec, kv: seq<Entry>, hidden: seq<bool>): Vec
    requires |hidden| == |kv|
  {
    Flat(MaskedHeads(l, q, kv, hidden))
  }

  /** The mask row of query `i`; with no mask every column is visible. */
  function HiddenRow(mask: Option<Mask>, kvLen: nat, i: nat): seq<bool>
    requires mask.Some? ==> i < |mask.value|
  {
    if mask.None? then seq(kvLen, _ => false) else mask.value[i]
  }

  /** The mask broadcasts over the scores only when its shape is `(seq_len, kv_len)`. */
  predicate MaskShaped(mask: Option<Mask>, seqLen: nat, kvLen: nat) {
    mask.Some? ==> |mask.value| == seqLen && forall i | 0 <= i < seqLen :: |mask.value[i]| == kvLen
  }

  /** The keys and values after this step: appended to the cache unless the step starts at 0. */
  function Extended(l: Layer, cache: Cache, xs: seq<Vec>, pos: nat): seq<Entry> {
    if cache.None? || pos == 0 then Entries(l, xs, pos) else cache.value + Entries(l, xs, pos)
  }

  /** A row of the output of `forward_attn` plus the residual. */
  function AttendedRow(l: Layer, kv: seq<Entry>, xs: seq<Vec>, pos: nat, mask: Option<Mask>, i: nat): Vec
    requires i < |xs| && MaskShaped(mask, |xs|, |kv|)
  {
    Residual(l, xs[i], MaskedAttend(l, Query(l, xs[i], pos + i), kv, HiddenRow(mask, |kv|, i)))
  }

  function OutputRows(l: Layer, kv: seq<Entry>, xs: seq<Vec>, pos: nat, mask: Option<Mask>): (ys: seq<Vec>)
    requires l.Valid() && MaskShaped(mask, |xs|, |kv|)
    ensures |ys| == |xs|
  {
    seq(|xs|, i requires 0 <= i < |xs| => Output(l, AttendedRow(l, kv, xs, pos, mask, i)))
  }

  /**
   One layer of `forward`.  The rotary tables end at `MAX_SEQ_LEN`; past it the layer fails before
   it touches its cache.  A mask of the wrong shape fails after the cache has been replaced.
   */
  function LayerStep(l: Layer, cache: Cache, xs: seq<Vec>, pos: nat, mask: Option<Mask>): (r: (Option<seq<Vec>>, Cache))
    requires l.Valid()
    ensures r.0.Some? ==> |r.0.value| == |xs|
  {
    if pos + |xs| > MAX_SEQ_LEN then (None, cache)
    else
      var kv := Extended(l, cache, xs, pos);
      if !MaskShaped(mask, |xs|, |kv|) then (None, Some(kv))
      else (Some(OutputRows(l, kv, xs, pos, mask)), Some(kv))
  }

  /** The mask `forward` builds: none for a single row, the causal one otherwise. */
  function StepMask(seqLen: nat, pos: nat): Option<Mask> {
    if seqLen == 1 then None else Some(CausalMask(seqLen, pos))
  }
}
