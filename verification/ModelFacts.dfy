/**
 What the planner needs to know about a model, crates/lattice-engine/src/facts.rs: the shape of
 the model and the bytes each layer's tensors take in the file.
 */
module ModelFacts {
  import opened Wrappers
  import opened Integers

  const U64_LIMIT := 0x1_0000_0000_0000_0000
  const U32_LIMIT := 0x1_0000_0000

  datatype Facts = Facts(arch: string, layers: u32, hidden: u32, heads: u32, kvHeads: u32, trainContext: u32)

  datatype Inventory = Inventory(facts: Facts, layerBytes: seq<u64>, outputBytes: u64)

  /** One entry of the file's tensor directory. */
  datatype Tensor = Tensor(name: string, dims: seq<u64>, blockSize: nat, typeSize: nat) {
    predicate Valid() {
      blockSize > 0
    }
  }

  datatype Content = Content(splitCount: Option<u32>, facts: Facts, tensors: seq<Tensor>) {
    predicate Valid() {
      forall i | 0 <= i < |tensors| :: tensors[i].Valid()
    }
  }

  datatype FactsError = SplitFile | UnsupportedArch | BadLayerCount | InvalidTensor | MissingLayer

  // ---------- Sizes ----------

  const KV_F16_BYTES := 2

  function HeadDim(facts: Facts): nat
    requires facts.heads > 0
  {
    facts.hidden / facts.heads
  }

  lemma ProductIsNat(a: nat, b: nat)
    ensures a * b >= 0
  {
  }

  /** Bytes of KV cache for `layers` layers at the context ceiling. */
  function KvBytes(facts: Facts, layers: nat, maxContext: nat): nat
    requires facts.heads > 0
  {
    ProductIsNat(2 * facts.kvHeads, HeadDim(facts));
    ProductIsNat(2 * facts.kvHeads * HeadDim(facts), maxContext);
    ProductIsNat(2 * facts.kvHeads * HeadDim(facts) * maxContext, layers);
    2 * facts.kvHeads * HeadDim(facts) * maxContext * layers * KV_F16_BYTES
  }

  /** What the planner charges a layer for its keys and values. */
  function KvPerLayer(facts: Facts, context: nat): nat
    requires facts.heads > 0
  {
    ProductIsNat(4 * facts.kvHeads, HeadDim(facts));
    ProductIsNat(4 * facts.kvHeads * HeadDim(facts), context);
    4 * facts.kvHeads * HeadDim(facts) * context
  }

  /** The planner's own formula is the engine's cache size for one layer. */
  lemma KvPerLayerIsKvBytes(facts: Facts, context: nat)
    requires facts.heads > 0
    ensures KvPerLayer(facts, context) == KvBytes(facts, 1, context)
  {
    var width := facts.kvHeads * HeadDim(facts);
    assert 4 * facts.kvHeads * HeadDim(facts) == 4 * width;
    assert 2 * facts.kvHeads * HeadDim(facts) == 2 * width;
    assert 4 * width * context == 2 * width * context * 2;
  }

  lemma KvBytesAdds(facts: Facts, a: nat, b: nat, maxContext: nat)
    requires facts.heads > 0
    ensures KvBytes(facts, a + b, maxContext) == KvBytes(facts, a, maxContext) + KvBytes(facts, b, maxContext)
  {
    var perLayer := 2 * facts.kvHeads * HeadDim(facts) * maxContext;
    assert perLayer * (a + b) == perLayer * a + perLayer * b;
  }

  /** Keys and values of every head, two bytes each, for every position of every layer. */
  lemma KvPerPosition(facts: Facts, a: nat, b: nat, layers: nat)
    requires facts.heads > 0
    ensures KvBytes(facts, 1, 1) == (2 + 2) * (facts.kvHeads * (facts.hidden / facts.heads))
    ensures KvBytes(facts, layers, a + b) == KvBytes(facts, layers, a) + KvBytes(facts, layers, b)
    ensures KvBytes(facts, 0, a) == KvBytes(facts, layers, 0) == 0
  {
    var width := 2 * facts.kvHeads * HeadDim(facts);
    assert width == 2 * (facts.kvHeads * HeadDim(facts));
    assert width * (a + b) == width * a + width * b;
    Distributes(width * a, width * b, layers);
  }

  lemma Distributes(a: int, b: int, n: int)
    ensures (a + b) * n * KV_F16_BYTES == a * n * KV_F16_BYTES + b * n * KV_F16_BYTES
  {
    assert (a + b) * n == a * n + b * n;
  }

  // ---------- Tensor names ----------

  const BLOCK_PREFIX := "blk."

  function UpToDot(s: string): string {
    if s == [] || s[0] == '.' then [] else [s[0]] + UpToDot(s[1..])
  }

  predicate IsDigit(c: char) {
    '0' <= c <= '9'
  }

  predicate AllDigits(s: string) {
    forall i | 0 <= i < |s| :: IsDigit(s[i])
  }

  function DigitsValue(s: string): nat
    requires AllDigits(s)
  {
    if s == [] then 0
    else
      assert IsDigit(s[|s| - 1]);
      DigitsValue(s[..|s| - 1]) * 10 + (s[|s| - 1] as int - '0' as int)
  }

  /** `str::parse` for an unsigned type: an optional plus sign, digits, no overflow. */
  function ParseUnsigned(s: string, limit: nat): Option<nat> {
    var digits := if s != [] && s[0] == '+' then s[1..] else s;
    if digits == [] || !AllDigits(digits) then None
    else if DigitsValue(digits) < limit then Some(DigitsValue(digits)) else None
  }

  predicate IsBlock(name: string) {
    BLOCK_PREFIX <= name
  }

  /** The layer a tensor name carries, if it parses below `limit`. */
  function LayerIndex(name: string, limit: nat): Option<nat>
    requires IsBlock(name)
  {
    ParseUnsigned(UpToDot(name[|BLOCK_PREFIX|..]), limit)
  }

  /** A number as it is written. */
  function Decimal(n: nat): string {
    var digit := ["0123456789"[n % 10]];
    if n < 10 then digit else Decimal(n / 10) + digit
  }

  lemma {:induction false} DecimalValue(n: nat)
    ensures Decimal(n) != [] && AllDigits(Decimal(n))
    ensures DigitsValue(Decimal(n)) == n
  {
    if n >= 10 {
      DecimalValue(n / 10);
    }
    assert Decimal(n)[..|Decimal(n)| - 1] == if n < 10 then [] else Decimal(n / 10);
  }

  lemma {:induction false} UpToFirstDot(digits: string, rest: string)
    requires AllDigits(digits)
    ensures UpToDot(digits + "." + rest) == digits
  {
    if digits != [] {
      UpToFirstDot(digits[1..], rest);
      assert (digits + "." + rest)[1..] == digits[1..] + "." + rest;
    }
  }

  /** `blk.`, a number and a dot name the layer of that number, if it is below the limit. */
  lemma IndexOfName(layer: nat, rest: string, limit: nat)
    ensures IsBlock("blk." + (Decimal(layer) + "." + rest))
    ensures LayerIndex("blk." + (Decimal(layer) + "." + rest), limit) == if layer < limit then Some(layer) else None
  {
    var name := "blk." + (Decimal(layer) + "." + rest);
    assert name[4..] == Decimal(layer) + "." + rest;
    DecimalValue(layer);
    UpToFirstDot(Decimal(layer), rest);
  }

  /** A plus sign in front is allowed; anything else that is not a digit, or nothing at all, is no number. */
  lemma NotANumber(s: string, limit: nat, n: nat, i: nat)
    ensures n < limit ==> ParseUnsigned("+" + Decimal(n), limit) == Some(n)
    ensures ParseUnsigned("", limit) == ParseUnsigned("+", limit) == None
    ensures i < |s| && !('0' <= s[i] <= '9') && (i > 0 || s[i] != '+') ==> ParseUnsigned(s, limit) == None
  {
    DecimalValue(n);
    assert ("+" + Decimal(n))[1..] == Decimal(n) && "+"[1..] == "";
    if i < |s| && !('0' <= s[i] <= '9') && (i > 0 || s[i] != '+') {
      var digits, at := if s[0] == '+' then s[1..] else s, if s[0] == '+' then i - 1 else i;
      assert digits[at] == s[i] && !IsDigit(digits[at]);
    }
  }

  // ---------- The inventory ----------

  function Product(dims: seq<u64>): nat {
    if dims == [] then 1 else Product(dims[..|dims| - 1]) * dims[|dims| - 1]
  }

  /** `try_fold` with `checked_mul`: the product, or nothing once it passes 64 bits. */
  method CheckedProduct(dims: seq<u64>) returns (r: Option<u64>)
    ensures r.Some? ==> r.value == Product(dims)
    ensures r.Some? <==> CountsFit(dims)
  {
    var n: u64 := 1;
    for i := 0 to |dims|
      invariant n == Product(dims[..i])
      invariant forall j | 0 < j <= i :: Product(dims[..j]) < U64_LIMIT
    {
      assert dims[..i + 1][..i] == dims[..i];
      if n * dims[i] >= U64_LIMIT {
        assert Product(dims[..i + 1]) >= U64_LIMIT;
        return None;
      }
      n := n * dims[i];
    }
    assert dims[..|dims|] == dims;
    r := Some(n);
  }

  /** Every partial product of the dimensions fits 64 bits. */
  predicate CountsFit(dims: seq<u64>) {
    forall n | 0 < n <= |dims| :: Product(dims[..n]) < U64_LIMIT
  }

  function TensorBytes(t: Tensor): nat
    requires t.Valid()
  {
    Product(t.dims) / t.blockSize * t.typeSize
  }

  /** What the source accepts of a tensor on its own. */
  predicate WellSized(t: Tensor)
    requires t.Valid()
  {
    && CountsFit(t.dims)
    && Product(t.dims) > 0
    && Product(t.dims) % t.blockSize == 0
    && TensorBytes(t) < U64_LIMIT
  }

  predicate WellPlaced(t: Tensor, layers: nat) {
    IsBlock(t.name) ==> LayerIndex(t.name, U64_LIMIT).Some? && LayerIndex(t.name, U64_LIMIT).value < layers
  }

  predicate InLayer(t: Tensor, layer: nat) {
    IsBlock(t.name) && LayerIndex(t.name, U64_LIMIT) == Some(layer)
  }

  function LayerTotal(tensors: seq<Tensor>, layer: nat): nat
    requires forall i | 0 <= i < |tensors| :: tensors[i].Valid()
  {
    if tensors == [] then 0
    else
      var last := tensors[|tensors| - 1];
      LayerTotal(tensors[..|tensors| - 1], layer) + if InLayer(last, layer) then TensorBytes(last) else 0
  }

  function OutputTotal(tensors: seq<Tensor>): nat
    requires forall i | 0 <= i < |tensors| :: tensors[i].Valid()
  {
    if tensors == [] then 0
    else
      var last := tensors[|tensors| - 1];
      OutputTotal(tensors[..|tensors| - 1]) + if IsBlock(last.name) then 0 else TensorBytes(last)
  }

  // ---------- What the figures are ----------

  /** A product over lists one after the other. */
  lemma {:induction false} ProductSplits(a: seq<u64>, b: seq<u64>)
    ensures Product(a + b) == Product(a) * Product(b)
    ensures forall d: u64 :: Product([d]) == d
  {
    if b == [] {
      assert a + b == a;
    } else {
      ProductSplits(a, b[..|b| - 1]);
      assert (a + b)[..|a + b| - 1] == a + b[..|b| - 1];
      Associates(Product(a), Product(b[..|b| - 1]), b[|b| - 1]);
    }
  }

  lemma Associates(a: nat, b: nat, c: nat)
    ensures (a * b) * c == a * (b * c)
  {
  }

  /** A tensor whose elements fill whole blocks takes one type's size for each of them. */
  lemma BlocksTimesSize(t: Tensor)
    requires t.Valid() && Product(t.dims) % t.blockSize == 0
    ensures TensorBytes(t) * t.blockSize == Product(t.dims) * t.typeSize
  {
    var blocks := Product(t.dims) / t.blockSize;
    assert blocks * t.blockSize == Product(t.dims);
    assert blocks * t.typeSize * t.blockSize == blocks * t.blockSize * t.typeSize;
  }

  /** A tensor is well sized if its elements fill some whole blocks whose bytes fit 64 bits. */
  lemma WellSizedIs(t: Tensor)
    requires t.Valid() && CountsFit(t.dims)
    ensures WellSized(t) <==> exists blocks: nat ::
      blocks > 0 && blocks * t.blockSize == Product(t.dims) && blocks * t.typeSize < U64_LIMIT
  {
    var whole := Product(t.dims) / t.blockSize;
    if WellSized(t) {
      assert whole * t.blockSize == Product(t.dims) && whole > 0 && whole * t.typeSize < U64_LIMIT;
    }
    forall blocks: nat | blocks > 0 && blocks * t.blockSize == Product(t.dims)
      ensures blocks == whole && Product(t.dims) % t.blockSize == 0 && Product(t.dims) > 0
    {
      WholeBlocks(blocks, t.blockSize, Product(t.dims));
    }
  }

  lemma WholeBlocks(blocks: nat, size: nat, all: nat)
    requires size > 0 && blocks > 0 && blocks * size == all
    ensures all / size == blocks && all % size == 0 && all > 0
  {
    OnlyQuotient(blocks, size, all / size, all % size);
  }

  lemma OnlyQuotient(blocks: nat, size: nat, q: nat, r: nat)
    requires r < size && blocks * size == q * size + r
    ensures blocks == q && r == 0
  {
    if blocks > q {
      AtLeastOne(blocks, q, size);
    } else if blocks < q {
      AtLeastOne(q, blocks, size);
    }
  }

  lemma AtLeastOne(a: nat, b: nat, size: nat)
    requires a > b
    ensures a * size >= b * size + size
  {
    var more := a - b - 1;
    assert a * size == b * size + size + more * size;
  }

  function AllBytes(tensors: seq<Tensor>): nat
    requires forall i | 0 <= i < |tensors| :: tensors[i].Valid()
  {
    if tensors == [] then 0 else AllBytes(tensors[..|tensors| - 1]) + TensorBytes(tensors[|tensors| - 1])
  }

  function LayersSum(tensors: seq<Tensor>, layers: nat): nat
    requires forall i | 0 <= i < |tensors| :: tensors[i].Valid()
  {
    if layers == 0 then 0 else LayersSum(tensors, layers - 1) + LayerTotal(tensors, layers - 1)
  }

  lemma {:induction false} ChargedOnce(tensors: seq<Tensor>, layers: nat)
    requires tensors != [] && forall i | 0 <= i < |tensors| :: tensors[i].Valid()
    ensures var last := tensors[|tensors| - 1];
      LayersSum(tensors, layers) == LayersSum(tensors[..|tensors| - 1], layers)
        + if IsBlock(last.name) && LayerIndex(last.name, U64_LIMIT).Some?
             && LayerIndex(last.name, U64_LIMIT).value < layers then TensorBytes(last) else 0
  {
    if layers > 0 {
      ChargedOnce(tensors, layers - 1);
    }
  }

  lemma {:induction false} NoLayerNoBytes(layers: nat)
    ensures LayersSum([], layers) == 0
  {
    if layers > 0 {
      NoLayerNoBytes(layers - 1);
    }
  }

  /** Every tensor is charged once: the layers and the output together are all the bytes there are. */
  lemma {:induction false} BytesConserved(tensors: seq<Tensor>, layers: nat)
    requires forall i | 0 <= i < |tensors| :: tensors[i].Valid() && WellPlaced(tensors[i], layers)
    ensures LayersSum(tensors, layers) + OutputTotal(tensors) == AllBytes(tensors)
  {
    if tensors == [] {
      NoLayerNoBytes(layers);
    } else {
      BytesConserved(tensors[..|tensors| - 1], layers);
      ChargedOnce(tensors, layers);
    }
  }

  predicate IsSplit(content: Content) {
    content.splitCount.Some? && content.splitCount.value > 1
  }

  /** Exactly the directories `read` accepts. */
  ghost predicate Readable(content: Content)
    requires content.Valid()
  {
    && !IsSplit(content)
    && content.facts.arch == "llama"
    && 1 <= content.facts.layers <= 4096
    && (forall i | 0 <= i < |content.tensors| ::
          WellSized(content.tensors[i]) && WellPlaced(content.tensors[i], content.facts.layers))
    && (forall layer: nat | layer < content.facts.layers :: 0 < LayerTotal(content.tensors, layer) < U64_LIMIT)
    && OutputTotal(content.tensors) < U64_LIMIT
  }

  lemma {:induction false} TotalsGrow(tensors: seq<Tensor>, n: nat, layer: nat)
    requires forall i | 0 <= i < |tensors| :: tensors[i].Valid()
    requires n <= |tensors|
    ensures LayerTotal(tensors[..n], layer) <= LayerTotal(tensors, layer)
    ensures OutputTotal(tensors[..n]) <= OutputTotal(tensors)
    decreases |tensors|
  {
    if n == |tensors| {
      assert tensors[..n] == tensors;
    } else {
      var init := tensors[..|tensors| - 1];
      TotalsGrow(init, n, layer);
      assert init[..n] == tensors[..n];
    }
  }

  lemma StepTotals(tensors: seq<Tensor>, n: nat, layer: nat)
    requires n < |tensors|
    requires forall i | 0 <= i < |tensors| :: tensors[i].Valid()
    ensures LayerTotal(tensors[..n + 1], layer) ==
      LayerTotal(tensors[..n], layer) + if InLayer(tensors[n], layer) then TensorBytes(tensors[n]) else 0
    ensures OutputTotal(tensors[..n + 1]) ==
      OutputTotal(tensors[..n]) + if IsBlock(tensors[n].name) then 0 else TensorBytes(tensors[n])
  {
    assert tensors[..n + 1][..n] == tensors[..n];
  }

  /** Where a tensor's bytes are charged, a layer or the output, and how many; or the source's refusal. */
  method Destination(t: Tensor, layers: nat) returns (r: Option<(Option<nat>, u64)>)
    requires t.Valid()
    ensures r.Some? <==> WellSized(t) && WellPlaced(t, layers)
    ensures r.Some? ==> r.value.1 == TensorBytes(t)
    ensures r.Some? ==> r.value.0 == if IsBlock(t.name) then LayerIndex(t.name, U64_LIMIT) else None
  {
    var elements := CheckedProduct(t.dims);
    if elements.None? || elements.value == 0 || elements.value % t.blockSize != 0 {
      return None;
    }
    var bytes := elements.value / t.blockSize * t.typeSize;
    if bytes >= U64_LIMIT {
      return None;
    }
    if IsBlock(t.name) {
      var index := LayerIndex(t.name, U64_LIMIT);
      if index.None? || index.value >= layers {
        return None;
      }
      return Some((index, bytes));
    }
    r := Some((None, bytes));
  }

  ghost predicate Chargeable(tensors: seq<Tensor>, layers: nat)
    requires forall i | 0 <= i < |tensors| :: tensors[i].Valid()
  {
    && (forall i | 0 <= i < |tensors| :: WellSized(tensors[i]) && WellPlaced(tensors[i], layers))
    && (forall layer: nat | layer < layers :: LayerTotal(tensors, layer) < U64_LIMIT)
    && OutputTotal(tensors) < U64_LIMIT
  }

  /** The figures after the first `n` tensors, none of which was refused. */
  ghost predicate Summed(tensors: seq<Tensor>, n: nat, layerBytes: seq<u64>, outputBytes: u64)
    requires n <= |tensors| && forall i | 0 <= i < |tensors| :: tensors[i].Valid()
  {
    && (forall layer | 0 <= layer < |layerBytes| :: layerBytes[layer] == LayerTotal(tensors[..n], layer))
    && outputBytes == OutputTotal(tensors[..n])
    && (forall i | 0 <= i < n :: WellSized(tensors[i]) && WellPlaced(tensors[i], |layerBytes|))
  }

  /** One more tensor: where it goes, and that a figure that does not fit makes the whole directory unacceptable. */
  lemma SummedNext(tensors: seq<Tensor>, n: nat, layerBytes: seq<u64>, outputBytes: u64)
    requires forall i | 0 <= i < |tensors| :: tensors[i].Valid()
    requires n < |tensors| && Summed(tensors, n, layerBytes, outputBytes)
    requires WellSized(tensors[n]) && WellPlaced(tensors[n], |layerBytes|)
    ensures var t, bytes := tensors[n], TensorBytes(tensors[n]);
      if IsBlock(t.name) then
        var index := LayerIndex(t.name, U64_LIMIT).value;
        if layerBytes[index] + bytes >= U64_LIMIT then !Chargeable(tensors, |layerBytes|)
        else Summed(tensors, n + 1, layerBytes[index := layerBytes[index] + bytes], outputBytes)
      else if outputBytes + bytes >= U64_LIMIT then !Chargeable(tensors, |layerBytes|)
      else Summed(tensors, n + 1, layerBytes, outputBytes + bytes)
  {
    var more := n + 1;
    forall layer: nat
      ensures LayerTotal(tensors[..more], layer) ==
        LayerTotal(tensors[..n], layer) + if InLayer(tensors[n], layer) then TensorBytes(tensors[n]) else 0
      ensures LayerTotal(tensors[..more], layer) <= LayerTotal(tensors, layer)
    {
      StepTotals(tensors, n, layer);
      TotalsGrow(tensors, more, layer);
    }
    StepTotals(tensors, n, 0);
    TotalsGrow(tensors, more, 0);
  }

  /** One pass over the directory, adding each tensor to its layer or to the output. */
  method Sums(tensors: seq<Tensor>, layers: nat) returns (r: Option<(seq<u64>, u64)>)
    requires forall i | 0 <= i < |tensors| :: tensors[i].Valid()
    ensures r.Some? <==> Chargeable(tensors, layers)
    ensures r.Some? ==> |r.value.0| == layers && r.value.1 == OutputTotal(tensors)
    ensures r.Some? ==> forall layer: nat | layer < layers :: r.value.0[layer] == LayerTotal(tensors, layer)
  {
    var layerBytes := new u64[layers](_ => 0);
    var outputBytes: u64 := 0;
    for n := 0 to |tensors|
      invariant Summed(tensors, n, layerBytes[..], outputBytes)
    {
      var destination := Destination(tensors[n], layers);
      if destination.None? {
        return None;
      }
      SummedNext(tensors, n, layerBytes[..], outputBytes);
      var (index, bytes) := destination.value;
      var before: u64 := if index.Some? then layerBytes[index.value] else outputBytes;
      if before + bytes >= U64_LIMIT {
        return None;
      }
      if index.Some? {
        layerBytes[index.value] := before + bytes;
      } else {
        outputBytes := before + bytes;
      }
    }
    assert tensors[..|tensors|] == tensors;
    r := Some((layerBytes[..], outputBytes));
  }

  /**
   `ModelInventory::read` past the metadata.  The figures it returns are exact, it succeeds exactly
   for the directories `Readable` describes, and each refusal names the first thing that is wrong.
   */
  method Read(content: Content) returns (r: Result<Inventory, FactsError>)
    requires content.Valid()
    ensures r.Success? <==> Readable(content)
    ensures r == Failure(SplitFile) <==> IsSplit(content)
    ensures r == Failure(UnsupportedArch) <==> !IsSplit(content) && content.facts.arch != "llama"
    ensures r == Failure(BadLayerCount) <==>
      !IsSplit(content) && content.facts.arch == "llama" && !(1 <= content.facts.layers <= 4096)
    ensures r == Failure(InvalidTensor) <==>
      && !IsSplit(content) && content.facts.arch == "llama" && 1 <= content.facts.layers <= 4096
      && !Chargeable(content.tensors, content.facts.layers)
    ensures r.Success? ==>
      && r.value.facts == content.facts
      && |r.value.layerBytes| == content.facts.layers
      && (forall layer: nat | layer < content.facts.layers ::
            r.value.layerBytes[layer] == LayerTotal(content.tensors, layer))
      && r.value.outputBytes == OutputTotal(content.tensors)
  {
    var facts, tensors := content.facts, content.tensors;
    if content.splitCount.Some? && content.splitCount.value > 1 {
      return Failure(SplitFile);
    }
    if facts.arch != "llama" {
      return Failure(UnsupportedArch);
    }
    if facts.layers == 0 || facts.layers > 4096 {
      return Failure(BadLayerCount);
    }
    var sums := Sums(tensors, facts.layers);
    if sums.None? {
      return Failure(InvalidTensor);
    }
    var (layerBytes, outputBytes) := sums.value;
    if 0 in layerBytes {
      var layer :| 0 <= layer < |layerBytes| && layerBytes[layer] == 0;
      assert LayerTotal(tensors, layer) == 0;
      return Failure(MissingLayer);
    }
    r := Success(Inventory(facts, layerBytes, outputBytes));
  }
}
