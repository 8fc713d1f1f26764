/**
 A shard's part of the model, `ShardModel` in crates/lattice-engine/src/llama.rs: a run of layers
 with one key/value cache each, the embedding if it starts the model, the head if it ends it.
 */
module Llama {
  import opened Wrappers
  import opened Vectors
  import Experts
  import opened Attention
  import opened AttentionExact

  datatype Payload = Tokens(ids: seq<nat>) | Hidden(rows: seq<Vec>) | Logits(values: seq<real>)

  datatype Weights = Weights(embed: Option<seq<Vec>>, layers: seq<Layer>, head: Option<Vec -> seq<real>>) {
    ghost predicate Valid() {
      forall i | 0 <= i < |layers| :: layers[i].Valid()
    }

    /** Token ids for the shard with the embedding, hidden states for any other. */
    predicate Takes(input: Payload) {
      if embed.Some? then input.Tokens? else input.Hidden?
    }

    /** The embedding look-up refuses ids past the end of its table. */
    predicate Reads(input: Payload) {
      Takes(input) && (embed.Some? ==> Within(embed.value, input.ids))
    }

    function Embedded(input: Payload): (xs: seq<Vec>)
      requires Reads(input)
      ensures input.Tokens? ==> |xs| == |input.ids|
    {
      if embed.Some? then EmbedAll(embed.value, input.ids) else input.rows
    }

    /** Only the last row matters for sampling, so the head sees nothing else. */
    function Finished(ys: seq<Vec>): Payload
      requires ys != []
    {
      if head.Some? then Logits(head.value(ys[|ys| - 1])) else Hidden(ys)
    }
  }

  /** Every id has a row in the table. */
  predicate Within(embed: seq<Vec>, ids: seq<nat>) {
    forall i | 0 <= i < |ids| :: ids[i] < |embed|
  }

  function EmbedAll(embed: seq<Vec>, ids: seq<nat>): (xs: seq<Vec>)
    requires Within(embed, ids)
    ensures |xs| == |ids|
  {
    seq(|ids|, i requires 0 <= i < |ids| => embed[ids[i]])
  }

  ghost predicate AllValid(layers: seq<Layer>) {
    forall i | 0 <= i < |layers| :: layers[i].Valid()
  }

  // ---------- A stack of layers ----------

  /** The layers in order; a layer that fails leaves the later caches alone. */
  function StackStep(layers: seq<Layer>, caches: seq<Cache>, xs: seq<Vec>, pos: nat, mask: Option<Mask>)
    : (r: (Option<seq<Vec>>, seq<Cache>))
    requires AllValid(layers) && |caches| == |layers|
    ensures |r.1| == |layers|
    ensures r.0.Some? ==> |r.0.value| == |xs|
  {
    if layers == [] then (Some(xs), [])
    else
      var (ys, cache) := LayerStep(layers[0], caches[0], xs, pos, mask);
      if ys.None? then (None, [cache] + caches[1..])
      else
        var (zs, rest) := StackStep(layers[1..], caches[1..], ys.value, pos, mask);
        (zs, [cache] + rest)
  }

  /** `forward`: the payload it returns, if it does not fail, and the caches it leaves. */
  function ForwardStep(w: Weights, caches: seq<Cache>, input: Payload, pos: nat): (r: (Option<Payload>, seq<Cache>))
    requires w.Valid() && |caches| == |w.layers| && w.Takes(input)
    ensures |r.1| == |caches|
    ensures r.0.Some? ==> if w.head.Some? then r.0.value.Logits? else r.0.value.Hidden?
  {
    if !w.Reads(input) || w.Embedded(input) == [] then (None, caches)
    else
      var xs := w.Embedded(input);
      var (ys, after) := StackStep(w.layers, caches, xs, pos, StepMask(|xs|, pos));
      (if ys.None? then None else Some(w.Finished(ys.value)), after)
  }

  lemma {:induction false} StackSplits(l1: seq<Layer>, l2: seq<Layer>, c1: seq<Cache>, c2: seq<Cache>,
                                      xs: seq<Vec>, pos: nat, mask: Option<Mask>)
    requires AllValid(l1) && AllValid(l2) && |c1| == |l1| && |c2| == |l2|
    ensures AllValid(l1 + l2)
    ensures var (ys, d1) := StackStep(l1, c1, xs, pos, mask);
      StackStep(l1 + l2, c1 + c2, xs, pos, mask) ==
        if ys.None? then (None, d1 + c2)
        else var (zs, d2) := StackStep(l2, c2, ys.value, pos, mask); (zs, d1 + d2)
  {
    if l1 == [] {
      assert l1 + l2 == l2 && c1 + c2 == c2;
      var (_, d1) := StackStep(l1, c1, xs, pos, mask);
      assert forall d: seq<Cache> :: d1 + d == d;
    } else {
      assert (l1 + l2)[1..] == l1[1..] + l2 && (c1 + c2)[1..] == c1[1..] + c2;
      var (ys, cache) := LayerStep(l1[0], c1[0], xs, pos, mask);
      if ys.Some? {
        StackSplits(l1[1..], l2, c1[1..], c2, ys.value, pos, mask);
        var (zs, d1) := StackStep(l1[1..], c1[1..], ys.value, pos, mask);
        assert forall d: seq<Cache> :: [cache] + (d1 + d) == [cache] + d1 + d;
      } else {
        assert [cache] + (c1[1..] + c2) == [cache] + c1[1..] + c2;
      }
    }
  }

  // ---------- The meaning of a stack ----------

  function StackMeaning(layers: seq<Layer>, xs: seq<Vec>): (ys: seq<Vec>)
    requires AllValid(layers)
    ensures |ys| == |xs|
  {
    if layers == [] then xs else StackMeaning(layers[1..], LayerMeaning(layers[0], xs))
  }

  /** The caches of a stack that has run exactly `xs`. */
  function CachesOf(layers: seq<Layer>, xs: seq<Vec>): (c: seq<Cache>)
    requires AllValid(layers)
    ensures |c| == |layers|
  {
    if layers == [] then [] else [CacheOf(layers[0], xs)] + CachesOf(layers[1..], LayerMeaning(layers[0], xs))
  }

  function Cleared(n: nat): seq<Cache> {
    seq(n, _ => None)
  }

  lemma {:induction false} CachesOfNothing(layers: seq<Layer>)
    requires AllValid(layers)
    ensures CachesOf(layers, []) == Cleared(|layers|)
  {
    if layers != [] {
      CachesOfNothing(layers[1..]);
      assert LayerMeaning(layers[0], []) == [];
    }
  }

  lemma {:induction false} StackCausal(layers: seq<Layer>, xs: seq<Vec>, ys: seq<Vec>)
    requires AllValid(layers)
    ensures StackMeaning(layers, xs + ys)[..|xs|] == StackMeaning(layers, xs)
  {
    if layers != [] {
      var m := LayerMeaning(layers[0], xs + ys);
      Causal(layers[0], xs, ys);
      assert m == LayerMeaning(layers[0], xs) + m[|xs|..];
      StackCausal(layers[1..], LayerMeaning(layers[0], xs), m[|xs|..]);
    }
  }

  /**
   Incremental decoding is exact: from the caches of `xs`, running `ys` at position `|xs|` returns
   the rows of a run from scratch and leaves its caches.
   */
  lemma {:induction false} StackExact(layers: seq<Layer>, xs: seq<Vec>, ys: seq<Vec>)
    requires AllValid(layers) && ys != [] && |xs| + |ys| <= MAX_SEQ_LEN
    ensures StackStep(layers, CachesOf(layers, xs), ys, |xs|, StepMask(|ys|, |xs|))
      == (Some(StackMeaning(layers, xs + ys)[|xs|..]), CachesOf(layers, xs + ys))
  {
    if layers == [] {
      assert (xs + ys)[|xs|..] == ys;
    } else {
      var l, rest := layers[0], layers[1..];
      var m := LayerMeaning(l, xs + ys);
      LayerExact(l, xs, ys);
      Causal(l, xs, ys);
      assert m == LayerMeaning(l, xs) + m[|xs|..];
      StackExact(rest, LayerMeaning(l, xs), m[|xs|..]);
      assert CachesOf(layers, xs)[1..] == CachesOf(rest, LayerMeaning(l, xs));
    }
  }

  /** A stack means its layers one after the other, on the rows the table has for the ids. */
  lemma {:induction false} StackMeaningComposes(l1: seq<Layer>, l2: seq<Layer>, xs: seq<Vec>)
    requires AllValid(l1) && AllValid(l2)
    ensures AllValid(l1 + l2) && StackMeaning(l1 + l2, xs) == StackMeaning(l2, StackMeaning(l1, xs))
    ensures StackMeaning([], xs) == xs
    ensures forall l: Layer | l.Valid() :: StackMeaning([l], xs) == LayerMeaning(l, xs)
    ensures forall table: seq<Vec>, ids: seq<nat>, i | Within(table, ids) && 0 <= i < |ids| ::
      EmbedAll(table, ids)[i] == table[ids[i]]
  {
    forall l: Layer | l.Valid()
      ensures StackMeaning([l], xs) == LayerMeaning(l, xs)
    {
      var none: seq<Layer> := [];
      assert [l][1..] == none;
    }
    if l1 == [] {
      assert l1 + l2 == l2;
    } else {
      assert (l1 + l2)[1..] == l1[1..] + l2;
      StackMeaningComposes(l1[1..], l2, LayerMeaning(l1[0], xs));
    }
  }

  /** How many rows a cache holds. */
  function Cached(cache: Cache): nat {
    if cache.None? then 0 else |cache.value|
  }

  /**
   The engine's only check of a position: two or more rows are refused anywhere but at the end of
   the cache or at 0, because the mask does not fit the scores.  A single row carries no mask, so
   it is taken at any position the rotary tables reach, right or wrong, even over an empty cache.
   */
  lemma {:induction false} PositionsAccepted(layers: seq<Layer>, caches: seq<Cache>, cached: nat, xs: seq<Vec>,
                                             pos: nat)
    requires AllValid(layers) && layers != [] && |caches| == |layers| && xs != []
    requires forall i | 0 <= i < |caches| :: Cached(caches[i]) == cached
    ensures StackStep(layers, caches, xs, pos, StepMask(|xs|, pos)).0.Some? <==>
      pos + |xs| <= MAX_SEQ_LEN && (|xs| == 1 || pos == 0 || pos == cached)
  {
    StepMaskIsCausal(|xs|, pos, 0);
    var ys := LayerStep(layers[0], caches[0], xs, pos, StepMask(|xs|, pos)).0;
    var kv := Extended(layers[0], caches[0], xs, pos);
    assert |kv| == |xs| + if pos == 0 then 0 else cached;
    assert |xs| != 1 ==> |CausalMask(|xs|, pos)[0]| == pos + |xs|;
    if ys.Some? && |layers| > 1 {
      PositionsAccepted(layers[1..], caches[1..], cached, ys.value, pos);
    }
  }

  // ---------- Any number of chunks ----------

  function Concat(chunks: seq<seq<Vec>>): seq<Vec> {
    if chunks == [] then [] else Concat(chunks[..|chunks| - 1]) + chunks[|chunks| - 1]
  }

  /** Feeds chunks one after the other, each at the position where the last one ended. */
  function Feed(layers: seq<Layer>, caches: seq<Cache>, chunks: seq<seq<Vec>>): (r: (Option<seq<Vec>>, seq<Cache>))
    requires AllValid(layers) && |caches| == |layers|
    ensures |r.1| == |layers|
  {
    if chunks == [] then (Some([]), caches)
    else
      var init, last := chunks[..|chunks| - 1], chunks[|chunks| - 1];
      var (out, before) := Feed(layers, caches, init);
      if out.None? then (None, before)
      else StackStep(layers, before, last, |Concat(init)|, StepMask(|last|, |Concat(init)|))
  }

  /** From cleared caches any chunking leaves the same caches, and its last rows are the rows of one run. */
  lemma {:induction false} ChunkingExact(layers: seq<Layer>, chunks: seq<seq<Vec>>)
    requires AllValid(layers) && |Concat(chunks)| <= MAX_SEQ_LEN
    requires forall i | 0 <= i < |chunks| :: chunks[i] != []
    ensures var (out, caches) := Feed(layers, Cleared(|layers|), chunks);
      && caches == CachesOf(layers, Concat(chunks))
      && out.Some?
      && (chunks != [] ==>
            out.value == StackMeaning(layers, Concat(chunks))[|Concat(chunks[..|chunks| - 1])|..])
  {
    if chunks == [] {
      CachesOfNothing(layers);
    } else {
      var init, last := chunks[..|chunks| - 1], chunks[|chunks| - 1];
      ChunkingExact(layers, init);
      StackExact(layers, Concat(init), last);
    }
  }

  // ---------- The model object ----------

  class ShardModel {
    const weights: Weights
    var kv: seq<Cache>
    var masks: map<(nat, nat), Mask>

    /** Every cached mask is the one its key stands for, whatever position asked for it first. */
    ghost predicate Valid()
      reads this
    {
      && weights.Valid()
      && |kv| == |weights.layers|
      && forall key | key in masks :: key.0 <= key.1 && masks[key] == CausalMask(key.0, key.1 - key.0)
    }

    constructor (weights: Weights)
      requires weights.Valid()
      ensures Valid() && this.weights == weights
      ensures kv == Cleared(|weights.layers|)
    {
      this.weights := weights;
      kv := Cleared(|weights.layers|);
      masks := map[];
    }

    /** The mask cache, keyed by `(seq_len, kv_len)`. */
    method MaskFor(seqLen: nat, pos: nat) returns (mask: Mask)
      requires Valid()
      modifies this`masks
      ensures Valid()
      ensures mask == CausalMask(seqLen, pos)
    {
      var kvLen := pos + seqLen;
      if (seqLen, kvLen) in masks {
        mask := masks[(seqLen, kvLen)];
      } else {
        mask := CausalMask(seqLen, pos);
        masks := masks[(seqLen, kvLen) := mask];
      }
    }

    method ClearKvCache()
      requires Valid()
      modifies this`kv
      ensures Valid() && kv == Cleared(|weights.layers|)
    {
      var i := 0;
      while i < |kv|
        invariant 0 <= i <= |kv| == |weights.layers|
        invariant forall j | 0 <= j < i :: kv[j] == None
      {
        kv := kv[i := None];
        i := i + 1;
      }
    }

    /** `forward_attn` with the residual: rotates, extends the cache, attends under the mask. */
    method ForwardAttn(i: nat, xs: seq<Vec>, mask: Option<Mask>, pos: nat) returns (hs: Option<seq<Vec>>)
      requires Valid() && i < |kv|
      modifies this`kv
      ensures Valid()
      ensures var l, before := weights.layers[i], old(kv)[i];
        if pos + |xs| > MAX_SEQ_LEN then hs == None && kv == old(kv)
        else
          var now := Extended(l, before, xs, pos);
          && kv == old(kv)[i := Some(now)]
          && (hs.Some? <==> MaskShaped(mask, |xs|, |now|))
          && (hs.Some? ==> |hs.value| == |xs|)
          && (hs.Some? ==> forall t | 0 <= t < |xs| :: hs.value[t] == AttendedRow(l, now, xs, pos, mask, t))
    {
      var l := weights.layers[i];
      if pos + |xs| > MAX_SEQ_LEN {
        return None;
      }
      var now := match kv[i] {
        case None => Entries(l, xs, pos)
        case Some(cached) => if pos == 0 then Entries(l, xs, pos) else cached + Entries(l, xs, pos)
      };
      kv := kv[i := Some(now)];
      if !MaskShaped(mask, |xs|, |now|) {
        return None;
      }
      hs := Some(seq(|xs|, t requires 0 <= t < |xs| => AttendedRow(l, now, xs, pos, mask, t)));
    }

    /** One iteration of the layer loop. */
    method ForwardLayer(i: nat, xs: seq<Vec>, mask: Option<Mask>, pos: nat) returns (ys: Option<seq<Vec>>)
      requires Valid() && i < |kv|
      modifies this`kv
      ensures Valid()
      ensures var step := LayerStep(weights.layers[i], old(kv)[i], xs, pos, mask);
        ys == step.0 && kv == old(kv)[i := step.1]
    {
      var l := weights.layers[i];
      var hs := ForwardAttn(i, xs, mask, pos);
      if hs.None? {
        assert pos + |xs| > MAX_SEQ_LEN ==> kv == old(kv)[i := old(kv)[i]];
        return None;
      }
      var normed := seq(|xs|, t requires 0 <= t < |xs| => l.ffnNorm(hs.value[t]));
      var mixed := Experts.Forward(l.ffn, normed);
      var rows := seq(|xs|, t requires 0 <= t < |xs| => Add(mixed[t], hs.value[t]));
      assert rows == LayerStep(l, old(kv)[i], xs, pos, mask).0.value;
      ys := Some(rows);
    }

    /** The layer loop. */
    method RunLayers(xs: seq<Vec>, mask: Option<Mask>, pos: nat) returns (out: Option<seq<Vec>>)
      requires Valid()
      modifies this`kv
      ensures Valid()
      ensures (out, kv) == StackStep(weights.layers, old(kv), xs, pos, mask)
    {
      var layers := weights.layers;
      var layerIn := xs;
      ghost var whole := StackStep(layers, kv, xs, pos, mask);
      ResumesEnds(layers, kv, xs, pos, mask);
      for i := 0 to |layers|
        invariant Valid()
        invariant Resumes(layers, kv, i, layerIn, pos, mask, whole)
      {
        ghost var before := kv;
        var ys := ForwardLayer(i, layerIn, mask, pos);
        ResumesNext(layers, before, i, layerIn, pos, mask, whole);
        if ys.None? {
          return None;
        }
        layerIn := ys.value;
      }
      ResumesEnds(layers, kv, layerIn, pos, mask);
      out := Some(layerIn);
    }

    /** `forward`: embed, run the layers in place, finish. */
    method Forward(input: Payload, pos: nat) returns (out: Option<Payload>)
      requires Valid() && weights.Takes(input)
      modifies this
      ensures Valid()
      ensures (out, kv) == ForwardStep(weights, old(kv), input, pos)
    {
      if !weights.Reads(input) {
        return None;
      }
      var layerIn := weights.Embedded(input);
      if layerIn == [] {
        return None;
      }
      var mask: Option<Mask> := None;
      if |layerIn| != 1 {
        var m := MaskFor(|layerIn|, pos);
        mask := Some(m);
      }
      var ys := RunLayers(layerIn, mask, pos);
      out := if ys.None? then None else Some(weights.Finished(ys.value));
    }
  }

  /** The loop state before layer `i`: what is left to run from here completes `whole`. */
  ghost predicate Resumes(layers: seq<Layer>, caches: seq<Cache>, i: nat, xs: seq<Vec>, pos: nat, mask: Option<Mask>,
                          whole: (Option<seq<Vec>>, seq<Cache>))
    requires AllValid(layers) && |caches| == |layers| && i <= |layers|
  {
    var (ys, rest) := StackStep(layers[i..], caches[i..], xs, pos, mask);
    whole == (ys, caches[..i] + rest)
  }

  lemma ResumesEnds(layers: seq<Layer>, caches: seq<Cache>, xs: seq<Vec>, pos: nat, mask: Option<Mask>)
    requires AllValid(layers) && |caches| == |layers|
    ensures Resumes(layers, caches, 0, xs, pos, mask, StackStep(layers, caches, xs, pos, mask))
    ensures forall whole :: Resumes(layers, caches, |layers|, xs, pos, mask, whole) ==> whole == (Some(xs), caches)
  {
    assert layers[0..] == layers && caches[0..] == caches;
    var none: seq<Cache> := [];
    assert layers[|layers|..] == [] && caches[|layers|..] == none && caches[..|layers|] + none == caches;
    var rest := StackStep(layers, caches, xs, pos, mask).1;
    assert caches[..0] + rest == rest;
  }

  /** A loop that rewrites one place at a time, seen from the front and from the back. */
  lemma Spliced<T>(s: seq<T>, i: nat, x: T, rest: seq<T>)
    requires i < |s|
    ensures s[..i] + ([x] + rest) == s[i := x][..i + 1] + rest
    ensures s[..i] + ([x] + s[i + 1..]) == s[i := x] && s[i := x][i + 1..] == s[i + 1..]
    ensures s[i..][1..] == s[i + 1..] && s[i..][0] == s[i]
  {
  }

  lemma ResumesNext(layers: seq<Layer>, caches: seq<Cache>, i: nat, xs: seq<Vec>, pos: nat, mask: Option<Mask>,
                    whole: (Option<seq<Vec>>, seq<Cache>))
    requires AllValid(layers) && |caches| == |layers| && i < |layers|
    requires Resumes(layers, caches, i, xs, pos, mask, whole)
    ensures var (ys, cache) := LayerStep(layers[i], caches[i], xs, pos, mask);
      var after := caches[i := cache];
      if ys.None? then whole == (None, after) else Resumes(layers, after, i + 1, ys.value, pos, mask, whole)
  {
    var (ys, cache) := LayerStep(layers[i], caches[i], xs, pos, mask);
    var after := caches[i := cache];
    assert layers[i..][1..] == layers[i + 1..];
    if ys.None? {
      Spliced(caches, i, cache, []);
    } else {
      Spliced(caches, i, cache, StackStep(layers[i + 1..], caches[i + 1..], ys.value, pos, mask).1);
    }
  }
}
