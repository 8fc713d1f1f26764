# Verification of Lattice

Lattice runs one language model across several machines on a local network. A master cuts the
model's layers into contiguous shards, every machine keeps one shard with its own key/value cache,
activations travel over streams between devices that have paired with a six-digit code, and GPU
workers register with a master that plans how much of a model each of them gets.

This project models the parts of it where a mistake would be silent, and proves what they are for.
Each module follows one source file. What the source does by changing state is a class or a method
with the same branches, tied by its postcondition to a function; what the source promises is proved
about that function. What interleaves is a transition system, and its properties hold for every run.
`dafny verify dfyconfig.toml` checks everything.

| module | models |
|---|---|
| `Planner`, `ModelFacts`, `Memory` | how many layers fit on which GPU; per-layer sizes; that splitting a model conserves its bytes |
| `Experts`, `Attention`, `AttentionExact`, `Llama`, `Shard`, `Tiling`, `Generate` | the sharded transformer, from one attention row up to the decode loop |
| `Mesh` | two devices that dial each other at once |
| `ShardThread`, `Activation`, `Remote`, `Distributed`, `Stream`, `Codec`, `Bytes` | the queue over one cache, the streams that feed it, what a master gets from them and what a whole run says, and their bytes |
| `Runtime`, `Service`, `Worker`, `Master` | the GPU slot, the reconnect loop, the registry of live workers |
| `Pairing`, `PairingSession`, `Trust`, `Provision` | how two devices come to trust each other, and how a master introduces the rest |
| `Integers`, `Vectors`, `Wrappers` | machine integers, real vectors, `Option` and `Result` |

## The main results

- Decoding over any placement says exactly what greedy decoding with the unsplit model says when it
  reruns the whole text, without a cache, for every token (`Generate.Run`). Below it: cached decoding
  is exact for any chunking (`Llama.ChunkingExact`), a chain of shards is one shard
  (`Generate.ChainIsOneShard`), and grouping rows by expert is the per-token mixture (`Experts.Forward`).
  What a layer and a mixture are is spelled out from their parts (`AttentionExact.LayerByDefinition`,
  `Experts.PerTokenIsWeightedMean`).
- The planner says yes if and only if a contiguous split exists, and its `expect` cannot fail
  (`Planner.Build`, `Planner.Walk`).
- A simultaneous open converges on one connection, over every interleaving, if and only if the lowest
  device that dialed dialed once (`Mesh.ConvergesIffBestDialedOnce`).
- Sessions cannot see each other's cache, steps get their own answers, and every stream queues one
  drop behind its runs (`ShardThread.SessionsIsolated`, `Activation.StepsGetTheirOwnAnswers`,
  `Activation.OneDropAfterAllRuns`). Put together, on a device that others load and use too: what a
  master gets over its stream is what a shard of its own would answer (`Remote.AnswersAreCalls`,
  `Remote.SuccessesAreCalls`); the exact condition for its cache to be its own is
  `Remote.CacheIsItsOwnIff`; and a whole run over such streams that gets all its answers says greedy
  decoding (`Distributed.AnsweredRunIsGreedy`).
- At most one GPU slot and one server process are out, the server belongs to the master's current
  tenure, a worker never changes master within a run, and at every wait the runtime takes orders from
  exactly the master the worker is registered with (`Runtime.OnePermitOneServer`, `Worker.IdentityPinned`,
  `Worker.AuthorisedIffRegistered`).
- If one side of a pairing reports success, both stores hold the other's key in memory and on disk,
  and a mistyped code, or a relay that puts in what it likes, changes neither (`PairingSession.SuccessMeansBothHold`,
  `PairingSession.DisagreementChangesNothing`).

## Where the code does less than it seems to

The condition is exact in each case; for a displaced session, what it gets is stated beside it.

- A placement list that names a device twice passes `check_tiling`, but a node keeps only the shard it
  loaded last, so some layers run twice and others never (`Tiling.RepeatedPeerLosesALayer`). Every layer
  runs once and in order if and only if no device is named twice (`Tiling.ExecutedEveryLayerOnce`).
- The engine takes a single row at any position, even over an empty cache, because a single row carries no
  mask; only longer inputs are refused at a wrong position (`Llama.PositionsAccepted`). The decode loop is
  what keeps positions right, and `Generate.NextOf` and `Generate.DecodeFrom` prove that it does.
- A failed call can leave a chain of shards different from a single one: a prefill that fails in the first
  stage has cleared that stage and no other. The two stay the same if and only if the call was a decode or
  the later stages had nothing to clear (`Generate.FailureKeepsSameIff`); otherwise their answers can differ
  from then on (`Generate.FailedPrefillDiverges`), until a prefill that clears every stage succeeds
  (`Generate.PrefillRecovers`). `Pipeline::run` gives up at the first failure.
- `Mesh::connect` looks and then dials without holding its lock. Two connections by the lower dialer can
  leave the two devices with different ones (`Mesh.DuplicatesDiverge`, `Mesh.ConvergesIffBestDialedOnce`).
- The check that opens a GPU session looks at the registered server and not at the one it dialed. A
  session can open whose server is gone; `Runtime.SessionIsLiveIff` says exactly when it is not, and two
  runs show both ways it can be.
- The comment on `TrustStore::insert` says that re-pairing a reinstalled device replaces its record. A new
  key has a new id unless the two hashes collide, so the old key normally stays trusted
  (`Trust.ReinstalledDeviceReplacesIffSameId`).
- A session that another one has displaced, and that goes on prefilling at a position above 0, is answered
  by a shard that has just been emptied (`ShardThread.DisplacedStartsOver`). Every other success is what a
  shard of its own would answer (`ShardThread.SuccessesArePrivate`).
- `generate` gives every run the session number 1. If two masters use one device at once, the second one's
  prefill takes the session over, and the first one's next decode is answered, over the other's text
  (`Generate.SharedSessionAnswersOther`; `Generate.SharedSessionMisleads` is a model it misleads). The cache a
  stream meets is of its own making if and only if since its last prefill at 0 nobody else has run or dropped
  anything of its session there, prefilled, or loaded a shard (`Remote.CacheIsItsOwnIff`); for its successes
  to be right, it is enough that nobody has run a step of its session or loaded other weights
  (`Remote.SuccessesAreCalls`).
- `shard_weight_bytes` charges an embedding to every range that starts at layer 0 and a head to every one
  that ends at the last layer. Over contiguous ranges, empty ones included, bytes are conserved if and only
  if there is no second such range with bytes to count (`Memory.ConservedIff`), which is what refusing
  empty ranges secures.

## Hypotheses

They are preconditions or fields, never axioms.

- Norms, projections, rotary embedding, the attention weight, the dense and expert networks and the
  output head are arbitrary functions, applied row by row; only attention looks at other rows.
  Arithmetic is over the reals.
- Activations cross between shards unchanged (the F32 wire).
- The model has at least one layer, its head names at least one token and none without an embedding;
  `Generate.Run` asks for placements that name no device twice. An empty prompt, ids past the vocabulary,
  positions past `MAX_SEQ_LEN`, shards that do not load and streams that break are not excluded: they are
  errors.
- A router's weights are positive, as a softmax makes them.
- Streams deliver bytes in order until they break (section 2.2 of RFC 9000); a close is seen eventually.
- In pairing, two terms are equal only if they were built alike, fresh secrets do not collide, and a relay
  knows neither code, so it makes no MAC under a secret that rests on one. That
  device ids tell keys apart is assumed by the two lemmas that say so and by no other.
- The methods of the worker's runtime and one handled `Provision` request are atomic.

## Model

| member | source | states |
|---|---|---|
| Planner.Build | crates/latticed/src/chat/plan.rs:9-97 | `Ok` exactly when the dimensions are supported, the device count is allowed and some split into one non-empty contiguous run per device exists in which every device that is charged anything keeps free both the reserve and a tenth of what it can use; then the shares are such a split, each at least 1, summing to layers + 1, each cut the first closest to proportional; `NoFit` means no split does |
| Planner.SplitsIsFits | crates/latticed/src/chat/plan.rs:33-48 | the costs and budgets of the table stand for the devices' memory and the inventory's bytes: a split is within budget exactly if, charged its layers, their keys and values and the output, each device keeps enough free |
| Planner.BudgetIsMost | crates/latticed/src/chat/plan.rs:36-40 | a budget is the most a device can be charged and still keep the reserve and a tenth |
| Planner.FillTable | crates/latticed/src/chat/plan.rs:50-69 | every entry of the table is exactly "these layers can be placed on these devices", also for a device that cannot hold its extra |
| Planner.FillRow | crates/latticed/src/chat/plan.rs:53-68 | a row found by the two-pointer sweep is the row defined by searching every cut, and `end` advances at most once per layer |
| Planner.WindowDecides | crates/latticed/src/chat/plan.rs:57-67 | the difference of two prefix counts is positive if and only if some cut within budget lands on a feasible position |
| Planner.PrefixSums | crates/latticed/src/chat/plan.rs:41-48 | prefix sums are the sums of the layer costs, no 128-bit step overflows, and there is room left for the output |
| Planner.PrefixGap | crates/latticed/src/chat/plan.rs:64-64 | a prefix difference is the cost of the run and never underflows |
| Planner.Walk | crates/latticed/src/chat/plan.rs:75-94 | from a feasible table the greedy walk finds a cut at every device, so the `expect` is unreachable, and the cuts fit |
| Planner.NextCut | crates/latticed/src/chat/plan.rs:76-91 | the cut taken is a candidate, and the first among those closest to the target; no 128-bit sum on the way overflows |
| Planner.ClosestIsProportional | crates/latticed/src/chat/plan.rs:76-91 | the bytes used up to the cut taken are closest to the part of all bytes that the budgets so far have of all budgets |
| Planner.AnyChoiceFits | crates/latticed/src/chat/plan.rs:83-94 | validity does not depend on which candidate wins, so rounding of the target cannot make a plan invalid |
| Planner.AcceptanceMonotone | crates/latticed/src/chat/plan.rs:34-74 | more free memory, a smaller reserve or a shorter context never turns an accepted request away |
| ModelFacts.Read | crates/lattice-engine/src/facts.rs:172-229 | past the metadata, reading succeeds exactly for single-file llama directories whose tensors are well sized and placed, whose every layer has weights and whose sums fit 64 bits; the sums are exact, and each refusal is the first of the five reasons that holds |
| ModelFacts.Sums | crates/lattice-engine/src/facts.rs:189-218 | one pass charges every tensor to its layer or to the output and fails exactly when a tensor or a sum is not acceptable |
| ModelFacts.CheckedProduct | crates/lattice-engine/src/facts.rs:193-198 | the checked product of the dimensions is the product, and is missing exactly when a partial product passes 64 bits |
| ModelFacts.BytesConserved | crates/lattice-engine/src/facts.rs:191-218 | every tensor is charged once: the layers and the output together are all the bytes there are |
| ModelFacts.IndexOfName | crates/lattice-engine/src/facts.rs:206-213 | `blk.`, a number as it is written and a dot name the layer of that number, if there is one |
| ModelFacts.NotANumber | crates/lattice-engine/src/facts.rs:206-213 | a plus sign is allowed in front; any other character that is no digit, and nothing at all, is refused |
| ModelFacts.BlocksTimesSize | crates/lattice-engine/src/facts.rs:199-205 | a tensor takes one type's size for each block its elements fill |
| ModelFacts.WellSizedIs | crates/lattice-engine/src/facts.rs:193-205 | a tensor's size is accepted exactly if its elements fill some whole blocks whose bytes fit 64 bits |
| ModelFacts.KvPerPosition | crates/lattice-engine/src/facts.rs:59-62 | the cache takes a key and a value of two bytes an element for every head, position and layer |
| ModelFacts.KvPerLayerIsKvBytes | crates/lattice-engine/src/facts.rs:59-62 | the planner's own cache formula is the engine's for one layer |
| Memory.WeightsConserved | crates/lattice-engine/src/candle.rs:208-249 | the weights of the shards of any accepted tiling sum to those of one shard holding everything, tied or untied head |
| Memory.WholeShardHoldsTheFile | crates/lattice-engine/src/candle.rs:208-249 | a shard of all layers holds every tensor of the file once as it is stored, but for the embedding, which takes four bytes an element, and is held as stored as well where it is the output |
| Memory.ShardsFit | crates/lattice-engine/src/candle.rs:208-240 | if the whole model's size fits 64 bits, so does every shard's and the sum |
| Memory.ContiguousExcess | crates/lattice-engine/src/candle.rs:208-249 | over contiguous ranges, empty ones included, the sum is the whole model's plus an embedding for each further range from layer 0 and a head for each further range to the last layer |
| Memory.ConservedIff | crates/latticed/src/generate.rs:182-197 | so bytes are conserved if and only if there is no second such range with bytes to count |
| Memory.EmptyEndsCountTwice | crates/latticed/src/generate.rs:189-191 | an empty first range counts a second embedding, an empty last one a second head |
| Memory.KvConserved | crates/lattice-engine/src/facts.rs:59-62 | so do their key/value caches |
| Memory.KvFits | crates/lattice-engine/src/facts.rs:59-62 | if the whole model's cache size fits 64 bits, so do a range's and every partial product on the way to it |
| Memory.InventoryMatchesShards | crates/lattice-engine/src/candle.rs:208-249 | the planner's per-layer figures and the size a shard reports agree on every range of layers |
| Tiling.CheckTiling | crates/latticed/src/generate.rs:182-197 | accepted exactly when the ranges are contiguous, non-empty and reach from 0 to the last layer; a refusal names the first range that breaks this behind a prefix that does not, or how far they reach |
| Tiling.TilesIsEveryLayerOnce | crates/latticed/src/generate.rs:182-197 | which is to say: exactly when they run every layer once and in order |
| Tiling.ExecutedEveryLayerOnce | crates/latticed/src/node.rs:67-74 | what the devices run, each keeping the shard it loaded last, is every layer once if and only if no device is named twice |
| Tiling.RepeatedPeerLosesALayer | crates/latticed/src/node.rs:67-74 | four one-layer ranges with the middle two on one peer are accepted and run layers 0, 2, 2, 3 |
| Generate.NodeKeepsLastLoad | crates/latticed/src/node.rs:67-74 | the thread of a device that is sent the loads of a placement list holds the last one's shard, newly opened |
| Experts.TopKSelects | crates/lattice-engine/src/llama.rs:104-113 | the first k of the stable sort are distinct experts in descending order of weight, as many as there can be, none left out outweighs one taken, and among equals the lower index goes first |
| Experts.Group | crates/lattice-engine/src/llama.rs:102-119 | the two passes list under each expert exactly the rows that chose it, in order, with their renormalised weights beside them |
| Experts.RowsOfSelects | crates/lattice-engine/src/llama.rs:102-119 | a row is listed under exactly the experts it selected, once |
| Experts.RowsLandInEnoughExperts | crates/lattice-engine/src/llama.rs:104-119 | every row lands in exactly min(k, experts) distinct experts |
| Experts.SharesAligned | crates/lattice-engine/src/llama.rs:108-118 | `top_x` and `selected_rws` stay aligned: each listed share is the listed row's own |
| Experts.IndexAddDistinct | crates/lattice-engine/src/llama.rs:137-142 | scattering to distinct rows adds each value once and touches no other row |
| Experts.ByExpertIsMixture | crates/lattice-engine/src/llama.rs:124-146 | summing in the order the experts are run is summing over the row's own selection |
| Experts.Forward | crates/lattice-engine/src/llama.rs:84-150 | over a batch, every row gets the weighted sum over its own top experts, as if it were alone |
| Experts.PerTokenIsWeightedMean | crates/lattice-engine/src/llama.rs:102-146 | that sum is the mean of what the selected experts make of the row, weighted by their routing weights |
| Experts.SharesAreRenormalised | crates/lattice-engine/src/llama.rs:114-119 | the shares of a selection are in the ratio of the weights and make one |
| Experts.EqualExperts | crates/lattice-engine/src/llama.rs:84-150 | experts that all do the same do it to the row, whatever the routing, as long as one is used |
| AttentionExact.MaskedIsPrefix | crates/lattice-engine/src/llama.rs:258-268 | a head's sums under a mask that hides everything from a position on are those over the prefix |
| AttentionExact.StepMaskIsCausal | crates/lattice-engine/src/llama.rs:518-531 | the mask, or its absence for one row, shows each query the columns up to its own absolute position and fits the scores |
| AttentionExact.LayerExact | crates/lattice-engine/src/llama.rs:199-274 | from the cache of earlier rows a layer, all its heads with their shared keys and values, returns the rows of a run from scratch and leaves its cache |
| AttentionExact.LayerByDefinition | crates/lattice-engine/src/llama.rs:199-274 | such a row, from the layer's own parts: each head is softmax attention over the rows so far, query and key each rotated where their own row stands; the heads end to end go through the output projection onto the row, and that through the network onto itself |
| AttentionExact.FlatColumns | crates/lattice-engine/src/llama.rs:271-271 | column h * width + c of the heads end to end is column c of head h |
| AttentionExact.OnlyDistanceMatters | crates/lattice-engine/src/llama.rs:225-226 | where a rotation changes no weight as long as the distance stays, a text that starts later gives the same rows |
| Llama.StackExact | crates/lattice-engine/src/llama.rs:545-580 | the same for any number of layers |
| Llama.StackMeaningComposes | crates/lattice-engine/src/llama.rs:545-580 | a stack means its layers one after the other, on the rows the table has for the ids |
| Llama.ChunkingExact | crates/lattice-engine/src/llama.rs:545-580 | from cleared caches any chunking leaves the same keys and values in every layer and the same last rows as one run |
| Llama.StackCausal | crates/lattice-engine/src/llama.rs:545-580 | rows already run are not affected by rows that come later |
| Llama.PositionsAccepted | crates/lattice-engine/src/llama.rs:518-580 | over caches of any one length, empty ones included, a step succeeds exactly when it stays within the rotary tables and is one row, or starts at 0 or at the end of the cache |
| Llama.ShardModel.MaskFor | crates/lattice-engine/src/llama.rs:518-531 | whatever asked first, the mask cached under (seq_len, kv_len) is the mask for the present position |
| Llama.ShardModel.ClearKvCache | crates/lattice-engine/src/llama.rs:533-543 | every layer's cache is empty |
| Llama.ShardModel.ForwardAttn | crates/lattice-engine/src/llama.rs:199-274 | what attention returns and what becomes of the cache, also when the tables end or the mask does not fit |
| Llama.ShardModel.Forward | crates/lattice-engine/src/llama.rs:545-580 | the loop over the layers in place computes the stack's step |
| Llama.StackSplits | crates/lattice-engine/src/llama.rs:545-580 | two stacks one after the other are one stack, failures and caches included |
| Shard.RunSplits | crates/lattice-engine/src/candle.rs:94-117 | cutting a shard in two and feeding the second the first's output changes nothing |
| Shard.CallSplits | crates/lattice-engine/src/candle.rs:162-183 | nor does it for a prefill or a decode of a session |
| Shard.ClearingPrefill | crates/lattice-engine/src/candle.rs:162-168 | a prefill of a new session, or at position 0, fails only for what it is sent: the wrong payload, no rows, too many, or several rows at a position above 0 |
| Shard.CandleShard.Prefill | crates/lattice-engine/src/candle.rs:162-168 | a new session or position 0 clears the cache first; then the step runs |
| Shard.CandleShard.Decode | crates/lattice-engine/src/candle.rs:170-183 | a session that is not active is refused and nothing changes; otherwise the step runs and, if it succeeds, is counted |
| Shard.CandleShard.DropSession | crates/lattice-engine/src/candle.rs:185-190 | the active session's cache is emptied; any other drop does nothing |
| Generate.LastLargest | crates/latticed/src/generate.rs:262-272 | `max_by` picks a largest value, and the last of them |
| Generate.ChainIsOneShard | crates/latticed/src/generate.rs:141-152 | for any accepted tiling the chain answers what one shard holding the same layers answers, and the stages' caches, end to end, are its cache |
| Generate.HistoriesAgree | crates/latticed/src/generate.rs:141-152 | over any history of prefills and decodes by any sessions in which every failure before the last call was harmless, the chain gives one shard's answers, the last included, and afterwards its caches, end to end, are the shard's if and only if the last call did not fail harmfully either |
| Generate.PrefillRecovers | crates/lattice-engine/src/candle.rs:162-168 | whatever a chain and a shard hold, a prefill that clears all of it, such as one at position 0, is answered alike by both, and if it succeeds their caches are the same from then on |
| Generate.FailureKeepsSameIff | crates/lattice-engine/src/candle.rs:162-183 | after a failed call the chain and the single shard are still the same if and only if it was a decode, or a prefill with nothing to clear behind the first stage |
| Generate.FailedPrefillDiverges | crates/lattice-engine/src/candle.rs:162-168 | after a new session's prefill that is too long, a decode is refused by the second stage where one shard takes it |
| Generate.FirstNotLoaded | crates/latticed/src/generate.rs:113-136 | opening stops at the first placement whose shard does not load |
| Generate.ChainIsWellWired | crates/lattice-engine/src/candle.rs:94-117 | no stage ever reports a wrong payload and the last one yields logits |
| Generate.Pipeline.constructor | crates/latticed/src/generate.rs:104-139 | opening gives one shard per placement, each with its own layers and an empty cache |
| Generate.Pipeline.Run | crates/latticed/src/generate.rs:141-152 | one traversal of the stages, in place, is the chain's answer and the chain's new caches |
| Generate.NextOf | crates/latticed/src/generate.rs:234-238 | a decode at the length of what is cached names the unsplit model's choice for the whole text |
| Generate.DecodeFrom | crates/latticed/src/generate.rs:234-238 | the loop sends every token at that position, so the caches keep up with the output |
| Generate.Run | crates/latticed/src/generate.rs:199-258 | success exactly when the placements tile the model, every shard loads, the prompt is not empty and within the vocabulary, every position fits and no stream breaks first; then exactly max(1, max_new) tokens, those of greedy decoding that reruns the unsplit model on everything so far; a bad tiling and a shard that does not load are reported as such |
| Generate.AnsweredIsGreedy | crates/latticed/src/generate.rs:228-241 | over chain calls alone: a cleared chain that is sent the prompt and then every token named, each at the position where the text ends, and always answers, names what greedy decoding names |
| Generate.SharedSessionAnswersOther | crates/latticed/src/generate.rs:20-20 | two masters on one device, both session 1: after the second one's prefill the first one's decode succeeds and names the choice after the other text, which is right if and only if the model's choice is the same after both |
| Generate.SharedSessionMisleads | crates/latticed/src/generate.rs:20-20 | a model with one averaging layer for which it is not |
| Distributed.AnsweredRunIsGreedy | crates/latticed/src/generate.rs:75-183 | every stage a shard here or a stream to a device that others use too, but for steps of the same session and loads of other weights: a run that gets all its answers says greedy decoding with the unsplit model |
| Distributed.KeepsItsOwn | crates/latticed/src/generate.rs:75-91 | what such a stage answers, call by call, is what a shard of its own would |
| Mesh.Registry.Adopt | crates/lattice-net/src/mesh.rs:96-110 | which of two connections is kept, which one is closed, and that every other entry is left alone; the kept one is what is then found for its peer, if it is live, and what is found for anyone else is the same |
| Mesh.AdoptIsAdopted | crates/lattice-net/src/mesh.rs:96-125 | what it does to the registry of one device is what adopting the connection does in the system of two, a link standing for a connection in the dialer's role exactly at the end that dialed it |
| Mesh.Registry.Forget | crates/lattice-net/src/mesh.rs:112-118 | only this peer's entry goes and only its connection is closed; nothing is found for it any more and the same for anyone else |
| Mesh.WinnerKept | crates/lattice-net/src/mesh.rs:96-110 | no dial, adoption or late close notice ever closes the connection the lower id dialed, if it dialed one |
| Mesh.CompleteRunsConverge | crates/lattice-net/src/mesh.rs:96-125 | once both ends have adopted everything both registries hold the one connection of the lowest dialer, live, and every other is closed at both ends |
| Mesh.DuplicatesDiverge | crates/lattice-net/src/mesh.rs:59-84 | two connections by the best dialer can end with each device keeping what the other closed |
| Mesh.ClosesAreHeard | crates/lattice-net/src/mesh.rs:128-130 | a connection shut at one end can become shut at the other |
| Mesh.ConvergesIffBestDialedOnce | crates/lattice-net/src/mesh.rs:59-125 | every complete run converges if and only if the lowest device that dialed did so once |
| ShardThread.Thread.RunStep | crates/latticed/src/node.rs:105-113 | no shard, a stray `Done` and a failing shard are refused; otherwise the shard's own answer |
| ShardThread.Thread.Process | crates/latticed/src/node.rs:67-98 | a load replaces the shard or leaves it, a run answers, a drop clears |
| ShardThread.Serve | crates/latticed/src/node.rs:61-98 | over any job sequence the thread holds what the history defines, and each reply depends on the jobs before it |
| ShardThread.SessionsIsolated | crates/lattice-engine/src/candle.rs:162-190 | over any job sequence: no active session means empty caches, and otherwise they are what certain runs, all of the active session, make of empty caches in their order; which runs is told by their places in the queue |
| ShardThread.OtherSessionsRefused | crates/lattice-engine/src/candle.rs:170-190 | a decode or drop for another session leaves the shard unchanged |
| ShardThread.SuccessesArePrivate | crates/lattice-engine/src/candle.rs:162-190 | whatever other sessions do, a session that is never displaced without its knowing gets, when it gets an answer, that of a shard of its own |
| ShardThread.PrefillsAtZeroAreSafe | crates/latticed/src/generate.rs:228-238 | a session that prefills at position 0 only is never displaced so |
| ShardThread.DisplacedStartsOver | crates/lattice-engine/src/candle.rs:162-168 | one that is gets the answer of a shard just opened, and only to a single row |
| ShardThread.UndisturbedIsPrivate | crates/lattice-engine/src/candle.rs:162-190 | without a prefill by another session the shard is the session's own in every respect |
| ShardThread.ReplyStable | crates/latticed/src/node.rs:67-98 | a reply does not depend on later jobs |
| Activation.ServeStream | crates/lattice-net/src/activation.rs:107-139 | the leading steps are executed and answered in order, an unreadable frame is answered as such, and however the stream ends the last job is one drop |
| Activation.ServeStreamInEvents | crates/lattice-net/src/activation.rs:107-139 | whatever arrives and wherever writing fails, the jobs and replies of `ServeStream` are those of a run of the transition system in which many streams share the queue |
| Activation.StepsGetTheirOwnAnswers | crates/lattice-net/src/activation.rs:87-96 | over every run of any number of streams the k-th step of a master gets the executor's answer to that step, failures included, and between steps nothing is left on the wire |
| Activation.StepGetsThrough | crates/lattice-net/src/activation.rs:87-96 | when nothing goes wrong a step is sent, read, executed, answered and taken, and the stream is as before |
| Activation.OneDropAfterAllRuns | crates/latticed/src/node.rs:239-257 | a stream that has ended has queued exactly one drop, behind all its runs; one that has not, none |
| Activation.EventKeeps | crates/lattice-net/src/activation.rs:87-139 | every send, receive, read, reply, failure and execution keeps both sides in step |
| Remote.AnswersAreCalls | crates/latticed/src/node.rs:239-253 | over every run of any number of streams and loads: from a run of a stream on that clears the shard or finds nothing of its session in it, as long as nobody else runs or drops anything of its session, prefills, or loads a shard, its answers, failures included, are those of a shard of its own called with its steps in order |
| Remote.SuccessesAreCalls | crates/lattice-net/src/activation.rs:87-96 | whatever else others do, earlier runs' late drops included: as long as nobody else runs a step of its session or loads other weights, a master that prefills at position 0 only gets failures or the answers of a shard of its own |
| Remote.CacheIsItsOwnIff | crates/latticed/src/generate.rs:20-20 | the cache a run of a stream meets was made by the stream's own runs since its last prefill at 0, all of them and no others, if and only if nobody else ran or dropped anything of its session, prefilled, or loaded a shard in between |
| Remote.NothingOfIts | crates/lattice-engine/src/candle.rs:162-190 | a session nobody has run a step of is not the active one, so its first run finds nothing of it |
| Stream.Encode | crates/lattice-net/src/stream.rs:77-85 | the buffer filled slice by slice decodes to the header it was filled from |
| Stream.HeaderBytes | crates/lattice-net/src/stream.rs:14-33 | the header's bytes: `LTCS`, version 1, the kind's number from 1 to 5, and two numbers with the least byte first |
| Bytes.FromLeIsPositional | crates/lattice-net/src/stream.rs:87-105 | a byte string read little-endian counts byte i as 256 to the power of i |
| Stream.DecodesIffEncoded | crates/lattice-net/src/stream.rs:77-105 | decoding gives a header for exactly one string of twenty bytes, the one encoding it gives |
| Stream.AcceptedStrings | crates/lattice-net/src/stream.rs:87-105 | which strings are accepted, and that a refusal names the first wrong field |
| Stream.FromWire | crates/lattice-net/src/stream.rs:36-45 | exactly the five kinds are known, each under its own number |
| Codec.WriteFrame | crates/lattice-net/src/codec.rs:9-18 | all of a frame or an error with as much of it as the stream took; over 4 GiB nothing is written |
| Codec.FrameBytes | crates/lattice-net/src/codec.rs:9-18 | the frame's bytes: the payload's length in four, the least first, and the payload |
| Codec.ReadFrame | crates/lattice-net/src/codec.rs:20-36 | the next frame and the bytes behind it, a length over the ceiling refused before any payload is read, or a broken read |
| Codec.Open | crates/lattice-net/src/transport.rs:239-254 | the header goes out before anything else |
| Codec.Accept | crates/lattice-net/src/transport.rs:256-271 | accepts exactly the encoded headers and leaves the rest of the stream |
| Codec.StreamRoundTrip | crates/lattice-net/src/codec.rs:9-36 | a header and any frames within the ceiling parse back to exactly themselves, and no other bytes parse to them |
| Codec.FramesComeBack | crates/lattice-net/src/codec.rs:20-36 | with frames over the ceiling, exactly those before the first of them arrive |
| Codec.BrokenStreamDeliversPrefix | crates/lattice-net/src/codec.rs:20-36 | a stream cut anywhere delivers exactly the frames that arrived whole, and a broken read exactly when one was torn |
| Runtime.WorkerRuntime.Authorize | crates/latticed/src/runtime.rs:197-203 | a change of master kills the server; the same master again changes nothing |
| Runtime.WorkerRuntime.CheckHealth | crates/latticed/src/runtime.rs:221-245 | refuses anyone but the master, and takes an exited server out of the state |
| Runtime.WorkerRuntime.Address | crates/latticed/src/runtime.rs:258-314 | the running server's process, or a new one in place of an exited one, or why not |
| Runtime.AddressDecides | crates/latticed/src/runtime.rs:258-314 | it succeeds for the master if its server runs or a new one starts; what it names is then the registered process and runs, the one that did with nothing started or killed, or a new one of this tenure; and each refusal |
| Runtime.CheckDecides | crates/latticed/src/runtime.rs:221-245 | the check passes for the master with no server or one that runs; only an exited one changes anything, and is taken out |
| Runtime.AuthorizeDecides | crates/latticed/src/runtime.rs:197-203 | a change of master leaves no server, registered or running; no change leaves everything |
| Runtime.OnePermitOneServer | crates/latticed/src/runtime.rs:197-271 | over every interleaving at most one permit is out and none is lost, and the only process that runs is the registered server, started in the present tenure of a registered master |
| Runtime.SessionHistory | crates/latticed/src/runtime.rs:319-339 | every session passed a check against the registered master after its TCP connect and has held the permit since it dialed |
| Runtime.SessionIsLiveIff | crates/latticed/src/runtime.rs:323-329 | when a session opens, the server it dialed still runs if and only if the tenure is the one `address` saw and no other check has reaped the server |
| Runtime.ReturnedMasterWithoutServer | crates/latticed/src/runtime.rs:197-203 | a run in which the master leaves and comes back between connect and check |
| Runtime.ReapedServer | crates/latticed/src/runtime.rs:224-236 | a run in which another call reaps the server in between |
| Runtime.FreeIsAnswered | crates/latticed/src/runtime.rs:205-219 | a device nobody uses answers that it is not busy |
| Runtime.BusyIsAnswered | crates/latticed/src/runtime.rs:205-219 | one in use answers that it is, without looking its GPU up or taking the permit |
| Service.Connect | crates/latticed/src/startup.rs:136-154 | the first device in address order that answers as the expected one; every address passed over is reported with its reason |
| Service.FirstWantedIs | crates/latticed/src/startup.rs:136-154 | somebody is found exactly if he is the first, in the order of the addresses, to answer as expected; nobody exactly if no one does |
| Worker.WorkerRun.RunInner | crates/latticed/src/startup/worker.rs:51-206 | over any script of discovery, answers, pairing, registration and disk, and with a shutdown signal at any wait or none, the loop logs what the history defines up to there and the runtime is left with no master |
| Worker.WorkerRun.OneTurn | crates/latticed/src/startup/worker.rs:90-205 | one turn: find, connect or pair, register, serve, each with its ways out |
| Worker.TurnTells | crates/latticed/src/startup/worker.rs:90-205 | with a target: whom a turn pairs with, connects to, registers with and loses, exactly when, how it ends and what it leaves saved |
| Worker.TurnPairsIff | crates/latticed/src/startup/worker.rs:110-133 | it asks for a pairing, whether it gets one or gives up, if and only if a code is at hand, or nobody wanted answers and the target is nobody known |
| Worker.KnownNeverPairs | crates/latticed/src/startup/worker.rs:102-126 | a worker without a code whose master is known in every round is never asked for one |
| Worker.TargetDecides | crates/latticed/src/startup/worker.rs:248-285 | where a worker turns to: the given address, the one master that offers itself, with its IPv4 addresses, loopback ones last, or the saved one; and exactly when this fails, and how |
| Worker.SelectMasterDecides | crates/latticed/src/startup/worker.rs:319-339 | two eligible masters are refused as ambiguous and none is no choice, both exactly then; otherwise it is the eligible one |
| Worker.IdentityPinned | crates/latticed/src/startup/worker.rs:90-205 | every connection, pairing, registration and authorisation of a run is with one identity: the selected one, or the saved one where it is looked up, or else the first met |
| Worker.TurnFixesIdentity | crates/latticed/src/startup/worker.rs:248-285 | a turn that connects or pairs settles what every later turn will look for |
| Worker.AuthorisedIffRegistered | crates/latticed/src/startup/worker.rs:190-202 | at every wait of every run the runtime takes orders from exactly the master the worker is registered with, or from nobody; in between they differ only where the authorisation that makes them agree comes next |
| Worker.GuardFindsRegistered | crates/latticed/src/startup/worker.rs:43-49 | whichever wait a signal cuts, what the guard has to withdraw is the master the worker is registered with at that moment, if any |
| Worker.TargetsHaveAddresses | crates/latticed/src/startup/worker.rs:215-215 | the address `pair` takes without looking is always there |
| Master.Registry.Join | crates/latticed/src/startup/master.rs:116-151 | a join registers the connection and sends every live worker a roster made for it |
| Master.RequestsAreEveryoneElse | crates/latticed/src/startup/master.rs:116-151 | those rosters are everyone trusted but the worker they are sent to, and there is one for every live worker |
| Master.Registry.Cleanup | crates/latticed/src/startup/master.rs:177-185 | an entry is removed only if it is this very connection |
| Master.EntryIsLatestJoin | crates/latticed/src/startup/master.rs:115-187 | over any order of events a worker's entry is its most recently joined connection until that connection's own clean-up |
| Master.OlderCleanupIsHarmless | crates/latticed/src/startup/master.rs:177-185 | cleaning up after an older connection never removes a newer one |
| Master.SettledRegistryIsOpenWorkers | crates/latticed/src/startup/master.rs:115-187 | with no clean-up outstanding the registry is exactly the workers whose last connection is open |
| Pairing.AcceptsIff | crates/lattice-net/src/pairing.rs:103-166 | whatever messages were delivered, a confirmation is accepted if and only if codes and sessions agree, each side was given the other's message and the keys differ; what is learned is the other's own record |
| Pairing.ReflectionAndTampering | crates/lattice-net/src/pairing.rs:110-164 | a device's own message, its own confirmation and a confirmation with another body are refused |
| PairingSession.Exchange | crates/latticed/src/pairing_session.rs:12-54 | the store changes only for a verified peer, `saved` goes out only after the record is on disk, and success means it was saved and confirmed |
| PairingSession.ExchangeIsMoves | crates/latticed/src/pairing_session.rs:12-54 | whatever arrives and wherever it breaks off, what `Exchange` leaves is what one side of the two-sided system leaves by moves of its own |
| PairingSession.SuccessMeansBothHold | crates/latticed/src/pairing_session.rs:20-50 | over every interleaving, with either side failing anywhere: if one side succeeds both stores trust the other's key, in memory and on disk |
| PairingSession.DisagreementChangesNothing | crates/latticed/src/pairing_session.rs:20-31 | a store only ever gains the other side's own record, and gains nothing if codes, sessions or the connection's key disagree, whatever a relay between two sessions puts in the place of messages and confirmations |
| PairingSession.RelayedConfirmFails | crates/lattice-net/src/pairing.rs:153-158 | no confirmation through a relay is accepted: neither a forged one, nor either side's own, nor one with another body |
| PairingSession.AgreementIsReached | crates/latticed/src/pairing_session.rs:20-50 | two devices that agree can both succeed, whatever their stores held |
| Trust.LoadStore | crates/lattice-net/src/trust.rs:78-89 | an absent file is an empty store, a readable one the store it lists, a damaged one an error |
| Trust.TrustStore.Insert | crates/lattice-net/src/trust.rs:93-96 | the record is in memory whatever becomes of the file; success means the file reads back as the store |
| Trust.TrustStore.Remove | crates/lattice-net/src/trust.rs:98-104 | the record is gone, the file is written only if there was one |
| Trust.SavedLoads | crates/lattice-net/src/trust.rs:78-127 | a list written in full loads as the store it was written from |
| Trust.ListingIsSorted | crates/lattice-net/src/trust.rs:116-126 | records are listed in strictly ascending order of id |
| Trust.InsertTrusts | crates/lattice-net/src/trust.rs:93-114 | inserting trusts exactly the new key and removing distrusts exactly that id |
| Trust.ReinstalledDeviceReplacesIffSameId | crates/lattice-net/src/trust.rs:91-96 | pairing with a device's new key drops its old key if and only if both hash to one id |
| Trust.KnownIsTrusted | crates/lattice-net/src/trust.rs:110-114 | if ids tell keys apart, having a record for a device's id is the same as trusting its key |
| Provision.RosterIsEveryoneElse | crates/latticed/src/node.rs:261-266 | a roster is everyone but its target, and only them |
| Provision.Node.AcceptIntroductions | crates/latticed/src/node.rs:174-204 | the handler's loop leaves the store and gives the response the specification defines, up to the introduction it refuses, and after a success the file holds what the memory does if it did before |
| Provision.HandlingOnlyAdds | crates/latticed/src/node.rs:174-204 | no record is replaced or removed, the device itself is never added, new records are the introduced ones vouched for by the introducer, the counts add up to the roster, and a stranger is refused without a change |
| Provision.RefusedIff | crates/latticed/src/node.rs:183-199 | the loop refuses exactly if one of the introductions it gets to has an unusable key, or is new, not the device's own, and cannot be written |
| Provision.RoundCompletesMesh | crates/latticed/src/node.rs:174-204 | after a round without failures every device knows every other, for any number of them |
| Provision.RoundCarriesRecords | crates/latticed/src/node.rs:261-266 | what a device did not know before it now has as the master has it, key, name and platform, vouched for by the master |
| Provision.SecondRoundAddsNothing | crates/latticed/src/node.rs:188-193 | a second round adds nothing anywhere and counts the whole roster as known |
| Provision.RoundBringsTrust | crates/lattice-net/src/trust.rs:110-114 | and if ids tell keys apart, any two of them trust each other's key |

## Left out

- QUIC, TLS, certificates, keep-alives and the TCP tunnel of the inference RPC: libraries and thin wrappers around them.
- mDNS, address parsing, firewall and set-up scripts, log draining, process spawning: discovery and answers are arbitrary inputs.
- SPAKE2, HMAC, SHA-256 and Ed25519 themselves: terms and arbitrary functions.
- The f16 wire and f32 rounding: `Generate.Run` is about the lossless wire and real arithmetic.
- Planner.NextCut: compares the distance to the proportional target exactly; the source rounds it to `f64`, which `Planner.AnyChoiceFits` shows cannot make a plan invalid.
- AttentionExact.LayerExact: which part of a vector belongs to a head, and which key/value head a query head shares, are arbitrary functions rather than reshapes; the fused kernel one backend uses for a single row is taken to compute the same.
- Experts.Group: takes each row's sorted selection as computed beforehand, and the library sort is a function rather than its algorithm.
- Generate.LastLargest: the library's `max_by` is a function rather than a loop.
- Generate.Pipeline.constructor: a remote stage is a shard whose calls cross the wire unchanged; for streams to devices that others use too, see `Distributed.AnsweredRunIsGreedy`.
- Generate.FirstNotLoaded: whether a shard loads is a yes or a no; why not, and what the attempt leaves on the device, are not modelled.
- Distributed.AnsweredRunIsGreedy: the devices' runs are independent of each other, so that one device is the peer of two stages is excluded by its hypothesis on loads.
- What an empty input leaves in the caches: it is a failure of the engine and changes nothing here.
- ModelFacts.Read: the metadata lookups and the file format are not modelled; a directory of tensors and its facts come in as values.
- Postcard and JSON encodings: a frame's payload is bytes, a message is a value, and a store's file is a list of records.
- The generation in a stream header is carried and never compared, as in the source.
- Codec.WriteFrame: a connection breaks after a fixed number of bytes rather than at a time.
- Runtime.SessionHistory: `connect` and `capabilities` are tasks of a transition system rather than methods, since their sections interleave with other tasks; time-outs may strike at any wait.
- Runtime.WorkerRuntime.Address: a server is identified by its process, so reuse of its port by another one is not modelled.
- Worker.WorkerRun.RunInner: a signal in the middle of a pairing exchange counts as before it, though the exchange may already have saved the record.
- Master.Registry.Join: the replies to the rosters and the link probe are not modelled.
- PairingSession.SuccessMeansBothHold: nothing else writes to either store during the exchange.
- Provision.RoundCompletesMesh: requests are handled one at a time, so a pairing that inserts between the look-up and the insertion of one handler is not modelled.
- Cancelling `RemoteShard::step` half-way, link probing, `select_device`, timing counters and everything printed.
