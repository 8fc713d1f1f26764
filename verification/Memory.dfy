/**
 The resident size of a shard, `shard_weight_bytes` and `in_range` in
 crates/lattice-engine/src/candle.rs, and its conservation across the shards of one model.
 */
module Memory {
  import opened Wrappers
  import opened Integers
  import opened ModelFacts
  import opened Tiling

  const EMBEDDING := "token_embd.weight"
  const OUTPUT := "output.weight"
  const OUTPUT_NORM := "output_norm.weight"

  function Find(tensors: seq<Tensor>, name: string): Option<Tensor> {
    if tensors == [] then None
    else if tensors[0].name == name then Some(tensors[0])
    else Find(tensors[1..], name)
  }

  /** The size of a tensor as stored; zero for one the file does not have. */
  function Quantized(content: Content, name: string): nat
    requires content.Valid()
  {
    FindIsListed(content.tensors, name);
    var t := Find(content.tensors, name);
    if t.None? then 0 else TensorBytes(t.value)
  }

  lemma FindIsListed(tensors: seq<Tensor>, name: string)
    ensures Find(tensors, name).Some? ==> Find(tensors, name).value in tensors
  {
  }

  predicate InRange(name: string, first: nat, last: nat) {
    && IsBlock(name)
    && LayerIndex(name, U32_LIMIT).Some?
    && first <= LayerIndex(name, U32_LIMIT).value < last
  }

  function BlockBytes(tensors: seq<Tensor>, first: nat, last: nat): nat
    requires forall i | 0 <= i < |tensors| :: tensors[i].Valid()
  {
    if tensors == [] then 0
    else
      var t := tensors[|tensors| - 1];
      BlockBytes(tensors[..|tensors| - 1], first, last) + if InRange(t.name, first, last) then TensorBytes(t) else 0
  }

  /** The embedding is held as f32, whatever it was stored as. */
  function EmbeddingBytes(content: Content, first: nat): nat {
    if first != 0 then 0
    else
      var t := Find(content.tensors, EMBEDDING);
      if t.None? then 0 else Product(t.value.dims) * 4
  }

  function HeadBytes(content: Content, last: nat, layers: nat): nat
    requires content.Valid()
  {
    var tied := Find(content.tensors, OUTPUT).None?;
    if last != layers then 0
    else Quantized(content, OUTPUT_NORM) + if tied then Quantized(content, EMBEDDING) else Quantized(content, OUTPUT)
  }

  function WeightBytes(content: Content, first: nat, last: nat, layers: nat): nat
    requires content.Valid()
  {
    BlockBytes(content.tensors, first, last) + EmbeddingBytes(content, first) + HeadBytes(content, last, layers)
  }

  function SumWeights(content: Content, places: seq<Placement>, layers: nat): nat
    requires content.Valid()
  {
    if places == [] then 0
    else WeightBytes(content, places[0].first, places[0].last, layers) + SumWeights(content, places[1..], layers)
  }

  function SumKv(facts: Facts, places: seq<Placement>, maxContext: nat): nat
    requires facts.heads > 0
    requires AllRanges(places)
  {
    if places == [] then 0
    else
      RestAreRanges(places);
      KvBytes(facts, places[0].last - places[0].first, maxContext) + SumKv(facts, places[1..], maxContext)
  }

  lemma RestAreRanges(places: seq<Placement>)
    requires AllRanges(places) && places != []
    ensures AllRanges(places[1..])
  {
    assert forall i | 0 <= i < |places[1..]| :: places[1..][i] == places[i + 1];
  }

  lemma {:induction false} BlocksSplit(tensors: seq<Tensor>, first: nat, mid: nat, last: nat)
    requires forall i | 0 <= i < |tensors| :: tensors[i].Valid()
    requires first <= mid <= last
    ensures BlockBytes(tensors, first, last) == BlockBytes(tensors, first, mid) + BlockBytes(tensors, mid, last)
  {
    if tensors != [] {
      BlocksSplit(tensors[..|tensors| - 1], first, mid, last);
    }
  }

  lemma {:induction false} EmptyBlocks(tensors: seq<Tensor>, at: nat)
    requires forall i | 0 <= i < |tensors| :: tensors[i].Valid()
    ensures BlockBytes(tensors, at, at) == 0
  {
    if tensors != [] {
      EmptyBlocks(tensors[..|tensors| - 1], at);
    }
  }

  // ---------- Any contiguous list of ranges, empty ones included ----------

  /** Ranges that follow one another from `next` to `layers`, each possibly empty. */
  predicate Contiguous(places: seq<Placement>, next: nat, layers: nat) {
    if places == [] then next == layers
    else places[0].first == next <= places[0].last && Contiguous(places[1..], places[0].last, layers)
  }

  /** How many ranges start at layer 0, and so hold the embedding. */
  function Firsts(places: seq<Placement>): nat {
    if places == [] then 0 else Firsts(places[1..]) + if places[0].first == 0 then 1 else 0
  }

  /** How many ranges end at the last layer, and so hold the head. */
  function Lasts(places: seq<Placement>, layers: nat): nat {
    if places == [] then 0 else Lasts(places[1..], layers) + if places[0].last == layers then 1 else 0
  }

  lemma {:induction false} ContiguousEndsAfter(places: seq<Placement>, next: nat, layers: nat)
    requires Contiguous(places, next, layers)
    ensures next <= layers
  {
    if places != [] {
      ContiguousEndsAfter(places[1..], places[0].last, layers);
    }
  }

  /** Every range that starts at layer 0 is charged an embedding, every one that ends at the last layer a head. */
  lemma {:induction false} ContiguousSum(content: Content, places: seq<Placement>, next: nat, layers: nat)
    requires content.Valid() && Contiguous(places, next, layers)
    ensures next <= layers
    ensures SumWeights(content, places, layers) ==
      BlockBytes(content.tensors, next, layers)
      + Firsts(places) * EmbeddingBytes(content, 0) + Lasts(places, layers) * HeadBytes(content, layers, layers)
  {
    if places == [] {
      EmptyBlocks(content.tensors, next);
    } else {
      var place, rest := places[0], places[1..];
      ContiguousSum(content, rest, place.last, layers);
      BlocksSplit(content.tensors, next, place.last, layers);
      var e, h := EmbeddingBytes(content, 0), HeadBytes(content, layers, layers);
      OneMore(Firsts(rest), e);
      OneMore(Lasts(rest, layers), h);
    }
  }

  lemma OneMore(n: nat, x: nat)
    ensures (n + 1) * x == n * x + x
  {
  }

  /**
   The sum over contiguous shards is the whole model's, plus one embedding for each range beyond the
   first that starts at layer 0 and one head for each beyond the first that ends at the last.
   */
  lemma ContiguousExcess(content: Content, places: seq<Placement>, layers: nat)
    requires content.Valid() && places != [] && Contiguous(places, 0, layers)
    ensures Firsts(places) >= 1 && Lasts(places, layers) >= 1
    ensures SumWeights(content, places, layers) ==
      WeightBytes(content, 0, layers, layers)
      + (Firsts(places) - 1) * EmbeddingBytes(content, 0)
      + (Lasts(places, layers) - 1) * HeadBytes(content, layers, layers)
  {
    ContiguousSum(content, places, 0, layers);
    SomeLast(places, 0, layers);
    OneMore(Firsts(places) - 1, EmbeddingBytes(content, 0));
    OneMore(Lasts(places, layers) - 1, HeadBytes(content, layers, layers));
  }

  lemma {:induction false} SomeLast(places: seq<Placement>, next: nat, layers: nat)
    requires places != [] && Contiguous(places, next, layers)
    ensures Lasts(places, layers) >= 1
  {
    if places[1..] != [] {
      SomeLast(places[1..], places[0].last, layers);
    }
  }

  /**
   Why `check_tiling` has to refuse empty ranges, and which ones it is about: bytes are conserved
   exactly if no second range holds an embedding and no second one a head, of any size.
   */
  lemma ConservedIff(content: Content, places: seq<Placement>, layers: nat)
    requires content.Valid() && places != [] && Contiguous(places, 0, layers)
    ensures SumWeights(content, places, layers) == WeightBytes(content, 0, layers, layers) <==>
      && (Firsts(places) == 1 || EmbeddingBytes(content, 0) == 0)
      && (Lasts(places, layers) == 1 || HeadBytes(content, layers, layers) == 0)
  {
    ContiguousExcess(content, places, layers);
    ZeroProduct(Firsts(places) - 1, EmbeddingBytes(content, 0));
    ZeroProduct(Lasts(places, layers) - 1, HeadBytes(content, layers, layers));
  }

  lemma ZeroProduct(n: nat, x: nat)
    ensures n * x >= 0 && (n * x == 0 <==> n == 0 || x == 0)
  {
    if n > 0 && x > 0 {
      OneMore(n - 1, x);
      assert (n - 1) * x >= 0;
    }
  }

  /** A tiling is a contiguous list with one range at either end of the model. */
  lemma {:induction false} TilesAreContiguous(places: seq<Placement>, next: nat, layers: nat)
    requires TilesFrom(places, next, layers)
    ensures Contiguous(places, next, layers)
    ensures next > 0 ==> Firsts(places) == 0
    ensures next == 0 && places != [] ==> Firsts(places) == 1
    ensures Lasts(places, layers) == if places == [] then 0 else 1
  {
    if places != [] {
      TilesFromOrdered(places, next, layers);
      TilesAreContiguous(places[1..], places[0].last, layers);
      if places[1..] != [] {
        assert places[0].last <= places[1].first < places[1].last <= layers;
      }
    }
  }

  /** Splitting a model changes where its bytes are, not how many there are; tied head or not. */
  lemma WeightsConserved(content: Content, places: seq<Placement>, layers: nat)
    requires content.Valid()
    requires layers > 0 && Tiles(places, layers)
    ensures SumWeights(content, places, layers) == WeightBytes(content, 0, layers, layers)
  {
    TilesAreContiguous(places, 0, layers);
    ConservedIff(content, places, layers);
  }

  /** So no shard of a model whose size fits 64 bits overflows them, nor does the sum. */
  lemma ShardsFit(content: Content, places: seq<Placement>, layers: nat, i: nat)
    requires content.Valid() && layers > 0 && Tiles(places, layers) && i < |places|
    requires WeightBytes(content, 0, layers, layers) < U64_LIMIT
    ensures WeightBytes(content, places[i].first, places[i].last, layers) < U64_LIMIT
    ensures SumWeights(content, places, layers) < U64_LIMIT
  {
    WeightsConserved(content, places, layers);
    PartOfSum(content, places, layers, i);
  }

  lemma {:induction false} PartOfSum(content: Content, places: seq<Placement>, layers: nat, i: nat)
    requires content.Valid() && i < |places|
    ensures WeightBytes(content, places[i].first, places[i].last, layers) <= SumWeights(content, places, layers)
  {
    if i > 0 {
      PartOfSum(content, places[1..], layers, i - 1);
    }
  }

  /** Two lists that are not tilings: an empty shard in front holds a second embedding, one behind a second head. */
  lemma EmptyEndsCountTwice(content: Content, layers: u32)
    requires content.Valid() && layers > 0
    ensures SumWeights(content, [Placement(0, 0, Here), Placement(0, layers, Here)], layers)
      == WeightBytes(content, 0, layers, layers) + EmbeddingBytes(content, 0)
    ensures SumWeights(content, [Placement(0, layers, Here), Placement(layers, layers, Here)], layers)
      == WeightBytes(content, 0, layers, layers) + HeadBytes(content, layers, layers)
  {
    var all, front, behind := Placement(0, layers, Here), Placement(0, 0, Here), Placement(layers, layers, Here);
    PairIsContiguous(front, all, layers);
    PairIsContiguous(all, behind, layers);
    ContiguousExcess(content, [front, all], layers);
    ContiguousExcess(content, [all, behind], layers);
  }

  lemma PairIsContiguous(a: Placement, b: Placement, layers: nat)
    requires a.first == 0 && a.first <= a.last == b.first <= b.last == layers
    ensures Contiguous([a, b], 0, layers)
    ensures Firsts([a, b]) == 1 + if b.first == 0 then 1 else 0
    ensures Lasts([a, b], layers) == 1 + if a.last == layers then 1 else 0
  {
    var rest, none: seq<Placement> := [b], [];
    assert [a, b][1..] == rest && rest[1..] == none;
    assert Contiguous(none, layers, layers) && Firsts(none) == 0 && Lasts(none, layers) == 0;
    assert Contiguous(rest, b.first, layers);
    assert Firsts(rest) == (if b.first == 0 then 1 else 0) && Lasts(rest, layers) == 1;
  }

  lemma {:induction false} KvConserved(facts: Facts, places: seq<Placement>, next: nat, layers: nat, maxContext: nat)
    requires facts.heads > 0
    requires TilesFrom(places, next, layers) && AllRanges(places) && next <= layers
    ensures SumKv(facts, places, maxContext) == KvBytes(facts, layers - next, maxContext)
  {
    if places == [] {
      assert KvBytes(facts, 0, maxContext) == 0;
    } else {
      RestAreRanges(places);
      TilesEndAfter(places[1..], places[0].last, layers);
      KvConserved(facts, places[1..], places[0].last, layers, maxContext);
      KvBytesAdds(facts, places[0].last - next, layers - places[0].last, maxContext);
    }
  }

  /** A range's cache is no larger than the whole model's, nor is any partial product on the way to it. */
  lemma KvFits(facts: Facts, first: nat, last: nat, layers: nat, maxContext: nat)
    requires facts.heads > 0 && first < last <= layers
    requires KvBytes(facts, layers, maxContext) < U64_LIMIT
    ensures KvBytes(facts, last - first, maxContext) < U64_LIMIT
    ensures 2 * facts.kvHeads * HeadDim(facts) * maxContext <= KvBytes(facts, 1, maxContext) < U64_LIMIT
  {
    KvBytesAdds(facts, last - first, layers - (last - first), maxContext);
    KvBytesAdds(facts, 1, layers - 1, maxContext);
  }

  // ---------- The planner's figures are the shard's ----------

  function LayersTotal(layerBytes: seq<u64>, first: nat, last: nat): nat
    requires first <= last <= |layerBytes|
  {
    if first == last then 0 else LayersTotal(layerBytes, first, last - 1) + layerBytes[last - 1]
  }

  lemma {:induction false} OneLayer(tensors: seq<Tensor>, layer: nat)
    requires forall i | 0 <= i < |tensors| :: tensors[i].Valid()
    requires layer < U32_LIMIT
    ensures BlockBytes(tensors, layer, layer + 1) == LayerTotal(tensors, layer)
  {
    if tensors != [] {
      OneLayer(tensors[..|tensors| - 1], layer);
    }
  }

  /**
   The inventory the planner reads and the size a shard reports are computed by different code
   over the same directory; they agree on every range of layers.
   */
  lemma {:induction false} InventoryMatchesShards(content: Content, inventory: Inventory, first: nat, last: nat)
    requires content.Valid()
    requires |inventory.layerBytes| == content.facts.layers
    requires forall layer: nat | layer < content.facts.layers ::
      inventory.layerBytes[layer] == LayerTotal(content.tensors, layer)
    requires first <= last <= content.facts.layers
    ensures BlockBytes(content.tensors, first, last) == LayersTotal(inventory.layerBytes, first, last)
    decreases last
  {
    if first == last {
      EmptyBlocks(content.tensors, first);
    } else {
      InventoryMatchesShards(content, inventory, first, last - 1);
      BlocksSplit(content.tensors, first, last - 1, last);
      OneLayer(content.tensors, last - 1);
    }
  }

  // ---------- What one shard of everything holds ----------

  ghost predicate NamesOnce(tensors: seq<Tensor>) {
    forall i, j | 0 <= i < j < |tensors| :: tensors[i].name != tensors[j].name
  }

  /** Besides its layers a model has an embedding, a norm and possibly an output projection, and nothing else. */
  ghost predicate KnownOutside(tensors: seq<Tensor>) {
    forall i | 0 <= i < |tensors| ::
      || IsBlock(tensors[i].name)
      || tensors[i].name == "token_embd.weight" || tensors[i].name == "output_norm.weight"
      || tensors[i].name == "output.weight"
  }

  function SizeOf(t: Option<Tensor>): nat
    requires t.Some? ==> t.value.Valid()
  {
    if t.None? then 0 else TensorBytes(t.value)
  }

  lemma {:induction false} FindAppends(tensors: seq<Tensor>, t: Tensor, name: string)
    ensures Find(tensors + [t], name) ==
      if Find(tensors, name).Some? then Find(tensors, name) else if t.name == name then Some(t) else None
  {
    if tensors == [] {
      assert tensors + [t] == [t] && [t][1..] == [];
    } else {
      assert (tensors + [t])[1..] == tensors[1..] + [t];
      FindAppends(tensors[1..], t, name);
    }
  }

  lemma {:induction false} FindIsNamed(tensors: seq<Tensor>, name: string)
    ensures Find(tensors, name).None? <==> forall i | 0 <= i < |tensors| :: tensors[i].name != name
    ensures Find(tensors, name).Some? ==> Find(tensors, name).value in tensors && Find(tensors, name).value.name == name
    ensures NamesOnce(tensors) ==> forall t | t in tensors && t.name == name :: Find(tensors, name) == Some(t)
  {
    if tensors != [] {
      FindIsNamed(tensors[1..], name);
      assert forall i | 0 <= i < |tensors[1..]| :: tensors[1..][i] == tensors[i + 1];
    }
  }

  /** What a tensor of a name takes as it is stored. */
  function Stored(tensors: seq<Tensor>, name: string): nat
    requires forall i | 0 <= i < |tensors| :: tensors[i].Valid()
  {
    FindIsListed(tensors, name);
    SizeOf(Find(tensors, name))
  }

  lemma StoredAppends(tensors: seq<Tensor>, t: Tensor, name: string)
    requires (forall i | 0 <= i < |tensors| :: tensors[i].Valid()) && t.Valid() && NamesOnce(tensors + [t])
    ensures Stored(tensors + [t], name) == Stored(tensors, name) + if t.name == name then TensorBytes(t) else 0
  {
    FindAppends(tensors, t, name);
    FindIsNamed(tensors, name);
    var all := tensors + [t];
    forall i | 0 <= i < |tensors|
      ensures tensors[i].name != t.name
    {
      assert all[i] == tensors[i] && all[|tensors|] == t;
    }
  }

  lemma BlocksAreNot()
    ensures IsBlock("token_embd.weight") == IsBlock("output_norm.weight") == IsBlock("output.weight") == false
  {
    assert "token_embd.weight"[0] == 't' && "output_norm.weight"[0] == 'o' && "output.weight"[0] == 'o';
  }

  lemma {:induction false} OutputIsThree(tensors: seq<Tensor>)
    requires forall i | 0 <= i < |tensors| :: tensors[i].Valid()
    requires NamesOnce(tensors) && KnownOutside(tensors)
    ensures OutputTotal(tensors) == Stored(tensors, "token_embd.weight")
      + Stored(tensors, "output_norm.weight") + Stored(tensors, "output.weight")
  {
    if tensors != [] {
      var init, t := tensors[..|tensors| - 1], tensors[|tensors| - 1];
      OutputIsThree(init);
      OneMoreStored(init, t);
      assert tensors == init + [t];
    }
  }

  lemma OneMoreStored(tensors: seq<Tensor>, t: Tensor)
    requires (forall i | 0 <= i < |tensors| :: tensors[i].Valid()) && t.Valid() && NamesOnce(tensors + [t])
    requires KnownOutside(tensors + [t])
    ensures Stored(tensors + [t], "token_embd.weight") + Stored(tensors + [t], "output_norm.weight")
        + Stored(tensors + [t], "output.weight")
      == Stored(tensors, "token_embd.weight") + Stored(tensors, "output_norm.weight")
        + Stored(tensors, "output.weight") + if IsBlock(t.name) then 0 else TensorBytes(t)
  {
    StoredAppends(tensors, t, "token_embd.weight");
    StoredAppends(tensors, t, "output_norm.weight");
    StoredAppends(tensors, t, "output.weight");
    BlocksAreNot();
    assert (tensors + [t])[|tensors|] == t;
  }

  lemma {:induction false} BlocksAreLayers(tensors: seq<Tensor>, layers: nat)
    requires (forall i | 0 <= i < |tensors| :: tensors[i].Valid()) && layers <= U32_LIMIT
    ensures BlockBytes(tensors, 0, layers) == LayersSum(tensors, layers)
  {
    if layers == 0 {
      EmptyBlocks(tensors, 0);
    } else {
      BlocksAreLayers(tensors, layers - 1);
      BlocksSplit(tensors, 0, layers - 1, layers);
      OneLayer(tensors, layers - 1);
    }
  }

  /**
   A shard of all layers holds every tensor of the file once as it is stored, but for the embedding:
   that takes four bytes for each element, and as it is stored only where it is the output as well.
   */
  lemma WholeShardHoldsTheFile(content: Content, layers: u32, embedding: Tensor)
    requires content.Valid() && NamesOnce(content.tensors) && KnownOutside(content.tensors)
    requires forall i | 0 <= i < |content.tensors| :: WellPlaced(content.tensors[i], layers)
    requires embedding in content.tensors && embedding.name == "token_embd.weight"
    ensures var tied := forall i | 0 <= i < |content.tensors| :: content.tensors[i].name != "output.weight";
      WeightBytes(content, 0, layers, layers) + (if tied then 0 else TensorBytes(embedding))
        == AllBytes(content.tensors) + 4 * Product(embedding.dims)
  {
    BytesConserved(content.tensors, layers);
    BlocksAreLayers(content.tensors, layers);
    OutputIsThree(content.tensors);
    FindIsNamed(content.tensors, "token_embd.weight");
    FindIsNamed(content.tensors, "output.weight");
  }

  /** And one that has not the first layer has no embedding, one that has not the last no head. */
  lemma InnerShardHoldsItsLayers(content: Content, first: nat, last: nat, layers: nat)
    requires content.Valid() && 0 < first <= last < layers
    ensures WeightBytes(content, first, last, layers) == BlockBytes(content.tensors, first, last)
    ensures (forall i | 0 <= i < |content.tensors| :: content.tensors[i].name != "token_embd.weight") ==>
      EmbeddingBytes(content, 0) == 0
  {
    FindIsNamed(content.tensors, "token_embd.weight");
  }
}
