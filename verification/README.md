# A verified model of the layer-streaming runtime

SipLLM runs a language model whose weights do not fit in memory: it streams them layer by layer
and wins the time back with fast paths - prefix reuse, cached prefixes, speculative decoding,
batched prefill, split machines, ring caches, interleaved integer kernels. Each of them claims to
compute what a simple path computes. This project models those paths and proves the claims, or
proves exactly when they hold.

`dafny verify dfyconfig.toml` checks the whole project; the configuration file only lists the
sources.

## How it is laid out

| part | files | what it is about |
|---|---|---|
| reference | `Network`, `Arith` | what a model computes, by causal dependency alone; a few facts on products |
| execution | `KvCache`, `Node`, `Lan`, `Transformer` | caches and rings, one machine's blocks, workers, sweeps |
| generation | `SpecDecoder`, `KvBlock`, `SemanticCache`, `Reuse`, `Generation`, `Trace`, `Sessions` | one call of the runtime and its log, sequences of calls, the radix tree of cached rows |
| streaming | `Loading`, `Loader`, `Residency`, `ResidentPeak` | the asynchronous ring, the pinning plan, the exact peak of resident bytes |
| attention | `Attention`, `TiledAttention`, `NodeAttention` | chunked and tiled softmax over the reals, with any exponential function, as the attention of a node |
| text | `Regex`, `PreTokenizer`, `Utf8`, `Chunks`, `Bpe`, `Tokenizer`, `Specials` | hand-written matchers against backtracking, merging, special tokens |
| kernels | `Quants`, `Interleave`, `Sdot`, `SdotIl4`, `KQuant`, `KQuantRef`, `KQuantAvx2` | block formats, in-place repacking, integer dot products |
| planning and files | `MemPlan`, `Budget`, `ModelFormat`, `ModelReader`, `ModelHeader` | the memory planner, what the loader makes of its plan, the `.llmw` container |

Weights, norms, RoPE and sampling are opaque functions: `Net` is any model and `World` any sampler,
filter and callback, so every theorem about generation holds for all of them, seeded sampling
included. Residuals, K/V vectors and logits are sequences of reals; the integer parts of the kernels
are exact, with their 16- and 32-bit wrap-around written out.

## Findings

Where the code does not do what its comments or its documentation say, the project gives an input
and the exact condition.

* **A cache hit drops the conversation** (`src/runtime.cpp:260-277`). Without reuse a prompt should
  continue the committed context. It does so if and only if nothing is committed, or the prompt has
  one token, or no stored sequence begins with the prompt's first token
  (`Reusing.ContinuesIff`). `Sessions.DroppedHistory` makes two calls with the prompt `[1, 2]`; the
  second answers as in a fresh conversation.
* **A failed call hides what a ring has lost** (`src/runtime.cpp:254-257,288-290`). A call that rewinds and then
  exceeds the context leaves a shorter record than what the rings hold, and the guard of the next
  rewind believes the record. After any number of failed calls a prompt loses rows if and only if it keeps
  some tokens of the record, at least two fewer than were written; some ring of at least two rows has
  wrapped; and no ring is shorter than the record, unless all of the record but one token is kept
  (`Reusing.MisledIff`). `Sessions.FailedCallMisleads` reaches it: after `[5, 6, 7]` and a failed
  `[5, 6, 8, 8, 8]`, the rewind and prefill of `[5, 9]` look back at token 7 instead of token 5.
* **The rewind check sees local rings only** (`src/runtime.cpp:254-257`, `include/llm/kv_cache.h:97-107`). With layers
  on other machines it speaks for all rings, wherever a rewind goes, if and only if every remote ring of at least two
  rows that is shorter than the context is at least as long as some local ring (`Reusing.GuardSpeaksIff`). Where that fails,
  a prompt behind a successful call loses rows if and only if it keeps some tokens, at least two fewer than are
  committed, no local ring has wrapped and a remote one has (`Reusing.UnguardedIff`, `Runtime.UnservableIff`).
  `Sessions.RemoteRingMisleads` is such a pair of calls over two machines: `[5, 6, 7]`, then `[5, 9]`.
* **A rejected draft and a ring do not go together** (`src/runtime.cpp:161-166,333-395`). Speculation can be switched on for
  any model. A step is safe for every sampler if and only if it drafts fewer than two tokens or no ring
  of at least two rows wraps over the batch, a condition on the position, the draft's length and the rings
  (`Reusing.DraftIsSafeIff`). A step's own outcome is right all the same; what is lost are rows of the next
  one (`Runtime.SpecStep`). In `Sessions.RejectedDraftMisleads` the prompt `[5, 6, 7, 8, 5]` on a ring of two leads to a
  draft `[7, 8]`, the sampler rejects it, and the next token looks back at the drafted 8 instead of the 6 before it.
* **Refills overshoot the weight ceiling** (`src/loader.cpp:201-206,233-246`). A slot holds parts of two layers while
  it is refilled. In every reachable state the loader stays within its budget if and only if the budget has room for every
  role of every slot at its largest - less what one slot saves while nothing is pinned, and for two slots only
  when a single layer streams (`ResidentPeak.CeilingIff`, for rings of any depth). A uniform stack with one layer pinned always
  stays within it (`ResidentPeak.PlanAndServe`); `ResidentPeak.RefillOvershoots` is a forward pass over three
  layers of four bytes each that holds twelve bytes where eight were budgeted.
* **The streamed head's window is spent twice** (`src/loader.cpp:207-254`, `src/mem_plan.cpp:240`). The plan's weight
  ceiling covers the window the head streams through; the loader counts against it only its own buffers, and pins further
  layers in the window's place. The loader keeps its ceiling, but with at most two buffers the process keeps the budget if
  and only if there is no room for another layer there (`BudgetContract.PlanAndLoad`). In `BudgetContract.WindowIsSpent`
  the plan pins 5 of 40 layers and the loader 18.
* **The planner's tiers are not strict for every request** (`src/mem_plan.cpp:119-139`). The score orders all
  configurations by priority if and only if a requested ring of two or more comes with at most 1000
  layers, two head options with at most 5000, several contexts with fewer than 78000, and a requested
  ring of no buffers with one layer (`MemPlanning.TiersIff`). `MemPlanning.HeadGivenUp` is a request
  whose plan gives up a resident head that fits; `MemPlanning.ZeroBuffers` (`--buffers 0` is accepted)
  one whose plan does not fit the one buffer the loader is given. Both are priced with the fixed costs of
  a small model, 24 MiB included.
* **An empty list of contexts** (`src/mem_plan.cpp:99-107,190-192`). A context request below 128 that
  is not explicit leaves nothing to try, and the refusal reads the last element of an empty list
  (`MemPlanning.PlanMemory`, outcome `NoContext`). Layers of no bytes are divided by as soon as anything
  fits (`DividesByZero`).
* **A large header is not re-read** (`src/format.cpp:53-58`). The comment promises it; the code stops
  at the first mebibyte. A written file opens if and only if its header ends within it
  (`ModelReading.OpenWritten`).
* **Special tokens with accented letters do not come back** (`src/tokenizer.cpp:590-619`). Decoding reads every
  token through the table of byte symbols, special tokens too. A special token decodes to itself if and only if none
  of its codepoints stands for a byte, as those from U+00A1 to U+0143 do, U+00AD apart (`Tokenizing.LiteralIff`); a text comes back if and
  only if all special tokens it is cut at do (`Tokenizing.DecodesIff`). `Tokenizing.AccentedSpecial` is a text that does not.
* **An end marker without a string** (`src/tokenizer.cpp:139-144,566-576`). Tokens of the special types are listed only
  if they have a string, end markers without that check, and cutting a text at an empty string never gets on
  (`SpecialTokens.StandsStill`). The list is free of them if and only if every end marker has a string
  (`SpecialTokens.Specials`).
* **The bounds check wraps** (`src/format.cpp:83-84`). A directory entry is accepted if and only if its
  data is inside the file or offset plus size passes 2^64 by no more than the file's size
  (`ModelReading.ExtentIff`), and exactly the latter cannot be read (`ModelReading.UnreadableIff`).

## Model

| member | source | states |
|---|---|---|
| Network.ResidCausal | src/transformer.cpp:213-380 | a position's residual, at every layer, depends on no later token |
| Network.RowCausal | src/transformer.cpp:213-380 | so does its K/V row: rows computed for a prefix are those of every continuation |
| Network.ResidIff | src/transformer.cpp:213-380 | a table of residuals is the network's if and only if it solves the layers' equations: embeddings at the bottom, and each layer finishes attention over the rows of its window; the logits are the head of the last one |
| KvCaching.SlotsDiffer | include/llm/kv_cache.h:193-196 | two positions less than a ring apart never share a slot |
| KvCaching.WriteKeeps | include/llm/kv_cache.h:91-96 | writing a position keeps every row the following queries can need |
| KvCaching.ResidentExact | include/llm/kv_cache.h:91-96 | after n positions a ring still holds position p if and only if n <= p + w |
| KvCaching.CanRewindExact | include/llm/kv_cache.h:97-107 | the rewind guard passes if and only if every row the next query needs is still in its slot |
| KvCaching.RowsLeftExact | include/llm/kv_cache.h:97-107 | the same for rings of any size, one row included |
| KvCaching.RejectedDraftLosesRows | src/runtime.cpp:352-372 | for one ring and what verification has kept: a needed row is lost if and only if the ring had wrapped and two stale rows were stored |
| KvCaching.FailedCallMisleadsGuard | src/runtime.cpp:254-258 | for one ring, exactly when the guard passes on a record that is shorter than what was written although a needed row is gone |
| KvCaching.AllResidentIff | include/llm/kv_cache.h:91-96 | a ring still holds every position, as the semantic cache needs, if and only if it has not wrapped |
| KvCaching.KvCache.Write | include/llm/kv_cache.h:127-143 | the position reads back as the row written; positions in other slots and all other layers read as before |
| KvCaching.KvCache.Inject | include/llm/kv_cache.h:165-172 | the leading positions of a layer, ring or not, read back as the given rows; every other layer stays |
| KvCaching.OverlayAt | include/llm/kv_cache.h:165-172 | an injected layer reads the new rows below the length and the old ones above |
| Nodes.StoresRewound | include/llm/kv_cache.h:97-107 | cut back as far as the rings allow, a cache serves any tokens that continue the kept prefix |
| Nodes.Node.Attend | src/transformer.cpp:398-519 | attention over what the cache returns; over the reference span if the cache holds it |
| Nodes.Node.AttendTiled | src/transformer.cpp:531-540 | rows of the batch from the projections, older ones from the cache: every query gets its reference span |
| Nodes.Node.AttendThenWrite | src/transformer.cpp:641-660 | tiled order on a ring: reads before any write of the batch, reference results and rows |
| Nodes.Node.WriteAttendEach | src/transformer.cpp:641-660 | write-then-attend per token on a ring: the same results and rows |
| Nodes.Node.WriteThenAttend | src/transformer.cpp:641-660 | whole batch written first, full cache: the same results and rows |
| Nodes.Node.Block | src/transformer.cpp:213-380 | a block over a batch of positions: reference residuals out, reference rows stored, other layers untouched |
| Nodes.Node.BlockChunks | src/transformer.cpp:976-996 | any chunk size leaves the same residuals and rows |
| Nodes.Node.RunLayers | src/transformer.cpp:1080-1094 | a worker's layers, layer-outer, over a batch: reference residuals and rows |
| Lan.ParseNodes | src/lan.cpp:225-250 | accepted exactly when there are entries, each is valid, and sorted they are contiguous |
| Lan.SortSorts | src/lan.cpp:246 | the sorted list is ascending |
| Lan.AcceptedIffChain | src/lan.cpp:246-248 | entries that form a chain in some order are sorted into that chain |
| Lan.ServeRun | src/lan.cpp:338-360 | a worker answers RUN exactly for its own begin and end, at least one position and inside the context, and then with the reference residuals and its rows stored |
| Lan.RemoteExecutor.Run | src/lan.cpp:426-456 | the coordinator's residuals become the worker's reply, or nothing changes |
| Transformers.AcceptedTiles | src/runtime.cpp:448-463 | a parsed list tiles the remote layers if and only if it starts and ends where they do |
| Transformers.TilesCover | src/runtime.cpp:455-462 | accepted segments give every remote layer to exactly one machine |
| Transformers.TilesMonotone | src/transformer.cpp:1069-1078 | segments are ordered and never overlap |
| Transformers.Transformer.SetRemoteSegments | src/runtime.cpp:448-463 | accepted if and only if the segments tile the layers this machine does not own |
| Transformers.Transformer.UseNodes | src/lan.cpp:225-250 | from `--nodes` entries to a wired model: accepted exactly when they are a chain over the remote layers, and then every machine owns its segment and no other |
| Transformers.Transformer.Sweep | src/transformer.cpp:962-1000 | layer-outer execution, chunked and split: reference residuals, and every machine stores the reference rows of its layers |
| Transformers.Transformer.Forward | src/transformer.cpp:816-879 | one position through all machines: reference logits and rows |
| Transformers.Transformer.Prefill | src/transformer.cpp:947-1008 | a batch of any length and chunk size: the logits and rows of position-by-position execution |
| Transformers.Transformer.SpecForward | src/transformer.cpp:1010-1068 | the logits of every position of a verified batch are the reference ones |
| Transformers.Transformer.AllStoreRewound | src/runtime.cpp:254-258 | after a rewind the caches of all machines serve any continuation of the kept prefix |
| SpecDecoding.PromptLookupDecoder.Draft | src/spec_decoder.cpp:6-37 | the draft is what follows the last earlier occurrence of the longest suffix n-gram that recurs, as many tokens as are asked for or as there are; it is empty only if none recurs |
| Reusing.RewindIsSafe | src/runtime.cpp:238-258 | behind a successful call the rewind never loses a needed row |
| Reusing.KeptIsLongest | src/runtime.cpp:238-253 | no longer common prefix leaves a prompt token to process |
| Reusing.MisledIff | src/runtime.cpp:254-258 | behind any chain of failed calls, exactly the prompts whose rewind loses rows |
| Reusing.FailedCallMisleads | src/runtime.cpp:254-258 | one failed call misleads only if its prompt kept all committed tokens but one |
| Reusing.GuardSpeaksIff | src/runtime.cpp:254-257 | the local guard speaks for all machines' rings if and only if each remote ring that can lose rows is as long as some local one |
| Reusing.UnguardedIff | src/runtime.cpp:254-257 | behind a successful call, exactly the prompts whose rewind loses rows on another machine |
| Reusing.DraftIsSafeIff | src/runtime.cpp:333-395 | every outcome of a verified batch leaves the next step its rows if and only if the draft is short or no ring wraps over it |
| Reusing.ContinuesIff | src/runtime.cpp:260-277 | exactly when a call without reuse continues the conversation, in terms of what is committed, stored and asked |
| Reusing.HitIsLongest | src/runtime.cpp:260-277 | a hit is the longest stored prefix of the prompt that leaves a token to process, if that is longer than what is kept |
| Generation.DecodeShape | src/runtime.cpp:309-325 | plain decoding commits the context and the streamed tokens, less the one at which the callback stopped; never an end marker, never beyond the context |
| Traces.PlainIff | src/runtime.cpp:284-325 | an outcome is that of plain decoding if and only if it ends a log of events: every prompt token shown to the sampler in order, before the first sample; every token sampled from the logits behind context, prompt and the tokens before it; each streamed before the next; and the end where it has to be |
| Traces.PlainOtherwise | src/runtime.cpp:284-291 | a prompt that does not fit is refused, and nothing else; an empty one changes nothing |
| Generation.Runtime.Verify | src/runtime.cpp:352-393 | walking a verified batch, with rejection, end marker and callback stop, leaves exactly what plain decoding still owes, and the cache as long as what is kept |
| Generation.Runtime.SpecStep | src/runtime.cpp:333-395 | on any rings a speculative step owes what plain decoding owes; a safe draft leaves the next step its rows |
| Generation.Runtime.DecodeLoop | src/runtime.cpp:309-397 | the decode loop, plain or speculative, has the outcome of plain decoding: tokens, sampler and callback state, committed context |
| Generation.Runtime.Rewind | src/runtime.cpp:238-258 | the kept prefix is the longest common one, less the last prompt token, or nothing where the guard refuses; the next position can be processed exactly if no machine's ring has lost a row |
| Generation.Runtime.ServableIff | src/runtime.cpp:254-258 | whatever happened before, a prompt can be served if and only if no ring of any machine lost a row it needs |
| Generation.Runtime.UnservableIff | src/runtime.cpp:254-258 | behind a successful call with reuse, exactly the prompts that cannot be served, over the rings of all machines |
| Generation.Runtime.UnwrappedServes | src/runtime.cpp:254-258 | while no ring has wrapped every prompt can be served |
| Generation.Runtime.InjectCached | src/runtime.cpp:260-277 | injected rows are the network's rows of the prompt; nothing changes without a longer prefix |
| Generation.Runtime.PrefillPrompt | src/runtime.cpp:284-305 | refuses exactly what does not fit; else rows and history of a full prefill, every prompt token shown to the sampler, and the first token sampled behind the last |
| Generation.Runtime.CommitRows | src/runtime.cpp:421-425 | the committed rows agree with the cache's row function; every prefix is stored if there is room |
| Generation.Runtime.Generate | src/runtime.cpp:168-429 | one call, whatever is switched on, is plain decoding of the prompt behind the context named by reuse and the cache, so its events are the ones `Traces.PlainIff` lists; tokens, environment and committed context agree, the hit count is the longest stored prefix, and the caches hold what is recorded, after a failure too |
| Generation.Runtime.Reset | include/llm/runtime.h:129 | forgetting the conversation restores the invariant from any state |
| Generation.Runtime.EnableSemanticCache | src/runtime.cpp:144-159 | a new cache is empty and one of this network's rows |
| Sessions.PositionAnswer | src/runtime.cpp:284-325 | a model and sampler for which a continued and a fresh conversation answer differently |
| Sessions.DroppedHistory | src/runtime.cpp:260-277 | two calls after which a cache hit has dropped the conversation, and the answer shows it |
| Sessions.FailedCallMisleads | src/runtime.cpp:254-258 | three prompts, the second failing, after which the third one's prefill answers from the row of another position |
| Sessions.RemoteRingMisleads | src/runtime.cpp:254-257 | two prompts over two machines after which the second one's prefill does, though the guard has let it through |
| Sessions.RejectedDraftMisleads | src/runtime.cpp:333-395 | a draft by prompt lookup, its rejection, and a next token that answers from a drafted row |
| KvBlocks.ColumnsCell | src/semantic_cache.cpp:159-179 | a re-sliced block holds, layer by layer, the rows of the chosen positions |
| KvBlocks.CopyColumns | src/semantic_cache.cpp:159-179 | the copy loops of a split compute that block |
| KvBlocks.FillBlock | src/semantic_cache.cpp:206-220 | a new leaf's block holds each row at layer times length plus position |
| SemanticCaching.HeadAgrees | src/semantic_cache.cpp:159-179 | the upper part of a split block agrees with the row function |
| SemanticCaching.TailAgrees | src/semantic_cache.cpp:159-179 | so does the lower part |
| SemanticCaching.SemanticCache.MarkUsed | src/semantic_cache.cpp:11-19 | the node moves to the front and is listed exactly once; every other node keeps its place |
| SemanticCaching.SemanticCache.PrefixStored | src/semantic_cache.cpp:60-123 | with a sequence all its prefixes are stored |
| SemanticCaching.SemanticCache.FindLongestPrefix | src/semantic_cache.cpp:60-123 | the length is that of the longest stored prefix, the staged buffers hold its rows for every layer and position, and the matched edges now stand in front of the use list, the deepest first, the others in their old order |
| SemanticCaching.SemanticCache.Split | src/semantic_cache.cpp:150-197 | an edge split keeps the stored prefixes, their rows, the byte count and every invariant |
| SemanticCaching.SemanticCache.Insert | src/semantic_cache.cpp:131-225 | exactly the prefixes of the committed tokens are added, and the edges they end in stand in front of the use list, the deepest first, the others in their old order |
| SemanticCaching.SemanticCache.Commit | src/semantic_cache.cpp:125-228 | invariants kept, the budget met, nothing stored but old and committed prefixes, and all of them if they fit; otherwise leaves are evicted from the back of the list the committed edges lead, and none that need not be |
| SemanticCaching.SemanticCache.SomeLeaf | src/semantic_cache.cpp:36-58 | while anything is listed a leaf is: the fallback without a leaf is never reached |
| SemanticCaching.SemanticCache.LeafIff | src/semantic_cache.cpp:36-58 | an edge is a leaf if and only if no stored sequence goes on behind it |
| SemanticCaching.SemanticCache.RemoveLeaf | src/semantic_cache.cpp:21-34 | removing a leaf drops exactly the prefixes ending in its edge and its bytes |
| SemanticCaching.SemanticCache.EvictOldest | src/semantic_cache.cpp:36-58 | the victim is the least recently used leaf; the others keep their order in the list |
| SemanticCaching.SemanticCache.EvictUntilFits | src/semantic_cache.cpp:36-58 | terminates within the budget, evicts nothing if it already fits and nothing more than needed; the list keeps its order, no leaf is left that was used before an evicted node, and what is stored is what the edges left hold |
| SemanticCaching.SemanticCache.BytesAreSum | include/llm/semantic_cache.h:60-63 | the byte count is the sum over the live nodes: two floats per layer and dimension, and an id, for every stored prefix |
| Loading.StepKeeps | src/loader.cpp:477-605 | every critical section and every unlocked store keeps the invariant: one live job per loading slot, stale jobs never touch a ready slot |
| Loading.RunKeeps | src/loader.cpp:477-605 | so does every interleaving of both threads |
| Loading.ActiveIsWhole | src/loader.cpp:534-605 | in every reachable state the slot being consumed holds exactly its layer's weights and the worker is not in it |
| Loading.RunSparesActive | src/loader.cpp:534-605 | the active block is constant until another load replaces it |
| Loading.LoadResult | src/loader.cpp:576-592 | a released call returns its own layer, whole, or that layer's read error, and a failed slot is no hit |
| Loading.CallerIsServed | src/loader.cpp:534-605 | in every interleaving, once a call for a layer has returned and until the next call, weights are read from that layer's block, pinned or whole in its slot |
| Loading.HitCostsNothing | src/loader.cpp:557-566 | a layer that is held or on its way in some slot takes no slot and no job |
| Loading.MissIsUrgent | src/loader.cpp:567-575 | any other is claimed in front of the queue |
| Loading.UrgentIsBounded | src/loader.cpp:567-582 | so its caller waits for the fill in flight and its own, however much is queued |
| Loading.ErrorStaysHome | src/loader.cpp:497-515 | a read error marks the slot of its own layer or none |
| Loading.WorkerCanMove | src/loader.cpp:477-515 | while a call waits in vain the worker can take a step |
| Loading.WaitIsBounded | src/loader.cpp:576-582 | a waiting call is released after a bounded number of worker steps |
| LayerLoading.RangeWrapPolicy.Next | include/llm/loader.h:126-137 | the next layer in cyclic order that is not pinned; none exactly when all are |
| LayerLoading.LayerLoader.LoadBegin | src/loader.cpp:534-582 | done at once exactly for a pinned layer, whose own block is then the active one; else it waits on a slot held for the layer, or claims another than the one in use, in front of the queue; this is the Begin step |
| LayerLoading.LayerLoader.LoadResume | src/loader.cpp:583-605 | the code behind the wait: the slot waited for becomes active, or is freed if the read failed; the next layer is claimed behind the queue unless the other slot has it; this is the Resume step |
| LayerLoading.LayerLoader.PopJob | src/loader.cpp:478-488 | taking a job, or dropping a stale one, is the Pop step |
| LayerLoading.LayerLoader.FinishJob | src/loader.cpp:490-510 | marking the slot, if it is still the job's, is the Finish step |
| LayerLoading.LayerLoader.LoadSync | src/loader.cpp:537-554 | a pinned layer's block, or the one slot after a load that succeeds or throws at any role; a call that returns serves its layer, and a label is never false |
| Residency.RefillBytes | src/loader.cpp:403-466 | what a slot holds in the middle of a refill |
| Residency.TargetFits | src/loader.cpp:219-237 | the target and the ring reserve fit the budget |
| Residency.TargetIs | src/loader.cpp:222-231 | all layers if they fit; otherwise as many as fit beside the ring, and not one more |
| Residency.PlanAndPin | src/loader.cpp:207-254 | the largest estimate, the layers pinned, the ceiling kept for any estimates, pinning stopped only where the next layer would not fit, and the full plan with ring room for exact estimates |
| Residency.WithinBudget | src/loader.cpp:683-689 | resident bytes under any per-role caps, in every reachable state |
| Residency.AllPinnedWithinBudget | src/loader.cpp:224-227 | with every layer pinned the ring stays empty |
| Residency.ResidentBytes | src/loader.cpp:683-689 | the loader's account is globals plus ring plus pinned bytes |
| ResidentPeak.NeverAbovePeak | src/loader.cpp:477-605 | in no reachable state, mid-refill or after any read error, does the ring exceed the peak |
| ResidentPeak.PeakIsReached | src/loader.cpp:477-605 | some run of served layers reaches the peak |
| ResidentPeak.CeilingIff | src/loader.cpp:201-206 | for rings of any depth: every reachable state stays within the budget if and only if it has room for the peak |
| ResidentPeak.SyncCeilingIff | src/loader.cpp:545-554 | the same for the synchronous loader's one slot |
| ResidentPeak.UniformPeak | src/loader.cpp:190-194 | in a uniform stack the peak is the room of the slots that can be filled |
| ResidentPeak.PlanAndServe | src/loader.cpp:207-254 | what the planner leaves behind: the exact condition for its budget in every later state, and that a uniform stack with one pinned layer meets it |
| ResidentPeak.RefillOvershoots | src/loader.cpp:201-206 | a forward pass without errors that exceeds room for the largest layer per slot |
| Attention.MassRescaled | src/transformer.cpp:490-517 | rescaling by exp(m - M) turns a chunk's mass into one under the common maximum |
| Attention.MeanIsAttention | src/transformer.cpp:412-519 | subtracting any maximum cancels out |
| Attention.ChunksCover | src/transformer.cpp:414-442 | the chunks cover the span and none is empty |
| Attention.Merge | src/transformer.cpp:483-519 | merging per-chunk maximum, sum and partial gives the one-pass softmax mean |
| Attention.Attend | src/transformer.cpp:412-519 | for every span and chunk size the result is softmax attention |
| Attention.AttentionUnique | src/transformer.cpp:412-519 | there is only one such result, so both forms agree |
| TiledAttention.ScoreTile | src/transformer.cpp:564-585 | visiting every K row once gives every query of the tile its scores |
| TiledAttention.TakeTile | src/transformer.cpp:596-622 | visiting every V row once completes every chunk of every query |
| TiledAttention.AttendTile | src/transformer.cpp:531-640 | each query of a tile gets the softmax attention of its own window |
| NodeAttention.HeadsAttend | src/transformer.cpp:412-519 | whoever computes each head's softmax attention has the attention of the network |
| NodeAttention.AttendAt | src/transformer.cpp:412-519 | dimension d of head k stands at place k times the head size plus d, and is the softmax-weighted mean of the values' dimension d |
| NodeAttention.WithHeadsSoftmaxes | src/transformer.cpp:412-519 | for any heads there is such a network |
| NodeAttention.AttendChunked | src/transformer.cpp:398-519 | a query of a node, head by head and in chunks of any size: the reference attention over its span |
| NodeAttention.AttendTiles | src/transformer.cpp:523-640 | a batch of a node, tiled over its queries: the reference attention of every query |
| Regex.RepThenFirst | src/tokenizer.cpp:338-348 | greedy repetition with backtracking reports the longest run from which the rest matches |
| Regex.OneOfOutcome | src/tokenizer.cpp:245-254 | of ordered alternatives the first that matches decides |
| PreTokenizing.ContractionOutcome | src/tokenizer.cpp:326-337 | contraction lengths are those of the pattern's first matching alternative |
| PreTokenizing.WhitespaceEnd | src/tokenizer.cpp:338-348 | the whitespace cut is the outcome of the three whitespace alternatives, lookahead included |
| PreTokenizing.Llama3Outcome | src/tokenizer.cpp:350-375 | a cut of the Qwen2 / Llama-3 matcher is where the backtracking engine's match ends |
| PreTokenizing.Gpt2Outcome | src/tokenizer.cpp:377-398 | the same for the GPT-2 matcher |
| PreTokenizing.CutsAreScan | src/tokenizer.cpp:350-398 | consecutive cuts are the engine's consecutive matches |
| PreTokenizing.SplitLlama3 | src/tokenizer.cpp:350-375 | the spans are the regex scan, non-empty, without gaps, over the whole text |
| PreTokenizing.SplitGpt2 | src/tokenizer.cpp:377-398 | the same for GPT-2 |
| Utf8.DecodeUtf8 | src/tokenizer.cpp:291-315 | every byte string is cut into codepoints in order, malformed bytes one at a time |
| Utf8.DecodesUtf8 | src/tokenizer.cpp:291-315 | a codepoint encoded as in section 3 of RFC 3629 is read back, anywhere in a text |
| Utf8.CpIff | src/tokenizer.cpp:291-315 | beyond ASCII, a form of two to four bytes is read as its value, overlong or not, and any other byte stands alone |
| Utf8.AsciiClasses | src/tokenizer.cpp:273-279 | which ASCII characters are digits, letters and white space, listed |
| Chunking.SplitSmol | src/tokenizer.cpp:416-426 | digits alone, GPT-2 matches of the stretches between them |
| Chunking.LegacyChunks | src/tokenizer.cpp:211-243 | the splitter for unknown families cuts at the matches of a pattern over bytes: contractions, led words, up to three led digits, spaces, the rest; non-empty chunks that together are the text |
| Chunking.Pretokenize | src/tokenizer.cpp:409-437 | for every family the chunks are the slices of its pattern's matches, never empty, and together the text |
| BytePairs.SymbolInjective | src/tokenizer.cpp:16-44 | no two bytes share a symbol |
| BytePairs.VisibleTable | src/tokenizer.cpp:16-44 | the codepoint of every byte, in closed form |
| BytePairs.KeyTellsParts | src/tokenizer.cpp:448-449 | a merge key joined by a space tells its two parts |
| BytePairs.BuildByteUnicode | src/tokenizer.cpp:16-44 | the tables hold every byte's symbol and invert each other |
| BytePairs.BestPair | src/tokenizer.cpp:447-451 | the pair of lowest rank, the leftmost of them, or none if none can be merged |
| BytePairs.MergeAll | src/tokenizer.cpp:446-455 | merging ends in the rank-ordered normal form with no pair left, spells the same, and stays in a closed vocabulary |
| BytePairs.UnsymbolFlat | src/tokenizer.cpp:606-618 | reading symbols back gives the bytes |
| BytePairs.DecodeToken | src/tokenizer.cpp:590-619 | the decode loop computes that reading, and nothing for unknown ids |
| BytePairs.ReadsAsSelfIff | src/tokenizer.cpp:606-618 | a string reads as itself if and only if it has no codepoint that stands for a byte: none from U+00A1 to U+0143 but U+00AD |
| Tokenizing.ChunkRoundTrip | src/tokenizer.cpp:439-463 | the ids of a chunk decode to the chunk |
| Tokenizing.EncodeBpe | src/tokenizer.cpp:439-463 | plain text: the ids of its chunks, and they decode to it |
| Tokenizing.SplitFrag | src/tokenizer.cpp:567-577 | cutting a fragment keeps the tiling, leaves the string in no plain piece and brings back none that was gone |
| SpecialTokens.Specials | src/tokenizer.cpp:118-148 | the list holds the tokens of the special types that have a string, and the end markers, each once; it is sorted by length, longest first, equals in their old order; all of it has strings exactly if the end markers do |
| Tokenizing.Fragment | src/tokenizer.cpp:557-580 | the fragments tile the text, no plain one contains any special string, and they are cut at special strings only: for each in turn, leftmost first and without overlap, every occurrence inside what was left plain |
| Tokenizing.FragmentsUnique | src/tokenizer.cpp:557-580 | so a text has one list of fragments |
| SpecialTokens.LongestWins | src/tokenizer.cpp:134-148 | a token that contains a shorter one wins: wherever a special string stands in a text, that token is cut or one at least as long that overlaps it |
| Tokenizing.Encode | src/tokenizer.cpp:552-588 | for every text the ids are those of its fragments, chunk by chunk, and carry the beginning marker once |
| Tokenizing.DecodesIff | src/tokenizer.cpp:552-625 | they decode to the text if and only if every special token it is cut at decodes to itself |
| Tokenizing.LiteralIff | src/tokenizer.cpp:606-618 | which a special token does if and only if none of its codepoints stands for a byte |
| Tokenizing.AccentedSpecial | src/tokenizer.cpp:606-618 | a special token with an accented letter, which does not come back |
| Tokenizing.RoundTrip | src/tokenizer.cpp:552-625 | decoding the encoding of any byte string gives it back, exactly if the special tokens in it decode to themselves |
| Tokenizing.AsciiIsLiteral | src/tokenizer.cpp:606-618 | ASCII special tokens decode to themselves |
| Tokenizing.Decode | src/tokenizer.cpp:621-625 | decoding is token by token |
| Quants.SubBlock4 | src/quant.cpp:173-218 | the real dot product over a Q4_K sub-block is its scale and minimum times integer sums |
| Quants.SubBlock6 | src/quant.cpp:244-303 | the same for Q6_K, with 32 taken off every code |
| Quants.DotBound | src/neon_sdot.cpp:57-109 | integer dots of codes and activations stay within 8001 per element |
| Interleaving.AtOrigin | src/neon_internal.h:61-79 | where a byte of a row is put determines row and byte |
| Interleaving.OriginAt | src/neon_internal.h:61-79 | and every byte of the group is put somewhere: the layout is a bijection |
| Interleaving.HoldsUnique | src/neon_internal.h:61-79 | two interleaved blocks are equal if and only if their rows are |
| Interleaving.HoldsSomething | src/neon_internal.h:61-79 | every block of bytes is the interleaving of some rows |
| Interleaving.Repack | src/neon.cpp:333-388 | in place: every group becomes the interleaving of its rows, every other byte stays, other shapes are refused |
| Sdot.RowQ4 | src/neon_sdot.cpp:57-109 | the row-major Q4_K kernel is the dot product of the dequantized weights, without overflow |
| Sdot.RowQ6 | src/neon_sdot.cpp:111-168 | the same for Q6_K |
| SdotInterleaved.LaneScaleMinIs | src/neon_sdot.cpp:390-410 | the vector unpacking of four rows' scales and minimums is the scalar one |
| SdotInterleaved.TileQ4 | src/neon_sdot.cpp:363-473 | interleaved Q4_K: every row and token gets the row-major dot product |
| SdotInterleaved.PassHalf | src/neon_sdot.cpp:483-560 | starting the accumulators at -32 times the sum gives the dots of the centred codes |
| SdotInterleaved.TileQ6 | src/neon_sdot.cpp:475-616 | interleaved Q6_K: the same |
| SdotInterleaved.RepackPacks | src/neon.cpp:333-388 | what the in-place repack leaves is what the interleaved kernels read |
| SdotInterleaved.Matmul | src/neon_sdot.cpp:363-616 | the product over repacked weights, for every row and token |
| KQuant.UnpackScalesMins | src/kquant_avx2.cpp:34-47 | the word tricks unpack exactly the scalar scales and minimums |
| KQuant.PairLane | src/kquant_avx2.cpp:296-351 | the pairwise multiply-add never saturates 16 bits on these codes |
| KQuantRef.VecDot4 | src/kquant_avx2.cpp:113-155 | the scalar Q4_K reference is the dot product of the dequantized weights |
| KQuantRef.VecDot6 | src/kquant_avx2.cpp:206-244 | the same for Q6_K |
| KQuantAvx2.ProdTotal | src/kquant_avx2.cpp:296-351 | the minimums folded through the activation sums give the reference's integer |
| KQuantAvx2.Unbiased | src/kquant_avx2.cpp:423-489 | centred dots are raw dots less 32 times the scaled sums |
| KQuantAvx2.SubTotal6 | src/kquant_avx2.cpp:423-489 | the shifted sums total that bias and stay within 32 bits |
| KQuantAvx2.Kernel4 | src/kquant_avx2.cpp:296-351 | the vector Q4_K kernel equals the reference for every activation row of the tile |
| KQuantAvx2.Kernel6 | src/kquant_avx2.cpp:423-489 | the same for Q6_K |
| KQuantAvx2.MatmulBatch | src/kquant_avx2.cpp:548-604 | tiling by rows and columns, remainders included, fills every entry with its dot product |
| MemPlanning.TiersIff | src/mem_plan.cpp:119-139 | the score orders all allowed configurations by priority if and only if the tiers hold |
| MemPlanning.TiersAreStrict | src/mem_plan.cpp:119-139 | where they hold, higher score and higher priority are the same |
| MemPlanning.AllowedIff | src/mem_plan.cpp:99-188 | the configurations tried: contexts by 128 down from the one asked for, heads, rings and pinned counts |
| MemPlanning.FitsIff | src/mem_plan.cpp:145-172 | a configuration fits if and only if its charges, listed one by one, are within the budget |
| MemPlanning.MostPinned | src/mem_plan.cpp:176-186 | the pinned count that is tried beats every other count beside the same ring |
| MemPlanning.Search | src/mem_plan.cpp:143-188 | the result fits and leads every configuration, every pinned count included; none is found only if none fits |
| MemPlanning.PlanMemory | src/mem_plan.cpp:36-256 | feasible exactly if something fits; the plan is the chosen configuration, optimal where the tiers hold, with every charge named and the ceiling what they leave of the budget; a refusal names the shortest context and what one buffer, nothing pinned and full-precision K/V cost there, which exceeds the budget |
| MemPlanning.HeadGivenUp | src/mem_plan.cpp:119-139 | a request whose plan is not optimal |
| MemPlanning.ZeroBuffers | src/mem_plan.cpp:234-237 | a request whose plan does not fit what the loader is given |
| BudgetContract.PlanIsMost | src/mem_plan.cpp:162-188 | the plan's layers fit its ceiling, and neither one more beside the ring nor all of them would |
| BudgetContract.PinnedIs | src/loader.cpp:222-231 | given the ceiling, the loader aims for the plan's layers at least, and for no others exactly if it finds no room for one more |
| BudgetContract.ContractIff | src/runtime.cpp:100-103 | loader and process stay within ceiling and budget, in every reachable state, if and only if the layers at their peak fit |
| BudgetContract.PlanAndLoad | src/runtime.cpp:81-119 | from the request to the pinned layers: at least the planned ones, the ceiling kept, and exactly when the process keeps its budget |
| BudgetContract.WindowIsSpent | src/loader.cpp:207-254 | a plan that fits its budget and a loader that exceeds it |
| ModelFormat.LeRoundTrip | src/format.cpp:31-45 | little-endian words of any width are read back |
| ModelFormat.LowestFirst | src/format.cpp:31-45 | byte k of a word is its digit k to the base 256 |
| ModelFormat.PatchOffsets | src/format.cpp:179-199 | the patch walk hits exactly the placeholders and nothing else |
| ModelFormat.Write | src/format.cpp:140-213 | the two-pass writer produces the file of the format |
| ModelFormat.StartsWith | include/llm/format.h:5-10 | a file starts with the letters LLMW, version 1, and its two counts |
| ModelFormat.OffsetsOrdered | src/format.cpp:172-177 | data regions follow the header in order and never overlap |
| ModelFormat.OffsetAligned | src/format.cpp:167-177 | every one starts at a multiple of 64 |
| ModelFormat.DataInPlace | src/format.cpp:172-206 | each tensor's bytes stand at its offset, inside the file |
| ModelReading.Open | src/format.cpp:50-93 | the cursor reads exactly the tables of the header |
| HeaderSpelling.OpensIff | src/format.cpp:50-93 | a file opens if and only if the tables of a header are spelled out in its first mebibyte; then it holds them, of one key the first value and under one name the last tensor |
| HeaderSpelling.RefusalIff | src/format.cpp:61-64 | exactly which files are refused for their magic and which for their version |
| ModelReading.OpenWritten | src/format.cpp:50-93 | a written file opens, with its own tables, if and only if the header ends in the first mebibyte |
| ModelReading.RoundTrip | src/format.cpp:50-110 | metadata, shapes, types and data of uniquely named entries come back |
| ModelReading.ExtentIff | src/format.cpp:81-84 | exactly which directory entries pass the bounds check |
| ModelReading.UnreadableIff | src/format.cpp:81-110 | in an opened file exactly the entries that wrap around cannot be read |

## Left out

- Generation.Runtime.Generate: asks that the caches can still serve the prompt (`Servable`) and that the rings suit what is switched on (`Roomy`). `ServableIff`, `UnservableIff` and `Reusing.MisledIff` say exactly when the first fails. For drafts of two tokens or more `Roomy` asks that no ring of at least two rows wraps by the end of the call (`Reusing.DraftIsSafeIff`, step by step), for the semantic cache that no ring at all has wrapped or will (`KvCaching.AllResidentIff`); beyond that the code goes on with rows of other positions.
- Generation.Runtime.InjectCached: on rings that hold the whole prefix only; on shorter ones the code copies rows over each other.
- ResidentPeak.CeilingIff: the peak is over any caller and any prefetch policy.
- BudgetContract.PlanAndLoad: layers of one shape, as large as the plan takes them to be; at least one buffer is requested, and a plan that does not fit and is forced is not followed further.
- Lan.ParseNodes: takes the entries' ports and ranges; splitting the text at commas, colons and dashes is not modelled.
- Lan.RemoteExecutor.Run: frame limits and a lost connection are one refusal, which leaves everything as it was.
- Transformers.Transformer.UseNodes: the connected workers are given; the handshake's checks are what `Backs` says.
- MemPlanning.PlanMemory: the scan of the tensor directory is a set of parameters; a model without layers, which the runtime refuses before it plans, is excluded, and so is wrap-around of sizes.
- Tokenizing.Encode: special tokens without a string, at which the code would not terminate, are excluded; `SpecialTokens.Specials` says when there are none.
- SpecialTokens.Specials: end markers beyond the vocabulary, whose strings the code would read out of bounds, are excluded.
- Tokenizing.RoundTrip: the vocabulary holds every byte symbol and merge result (`Complete`); the code drops symbols it does not know.
- Sdot.RowQ4: float rounding and the order of float additions are not modelled; half-precision conversion is a parameter, and activation codes lie in [-127, 127].
- ModelReading.OpenWritten: counts and lengths beyond 32 bits, which the writer truncates, are excluded.
- Nodes.Node.Block: norms, RoPE, activations, experts and biases are opaque functions; K and V are one row, staged together; scratch buffer offsets are not modelled.
- SemanticCaching.SemanticCache.EvictOldest: the fallback without a leaf is left out, being unreachable.
- LayerLoading.LayerLoader.LoadBegin: `unloadLayer`, shutdown and the statistics are not modelled.
- Growth of the cache, 8-bit K/V rows and layers of different geometry.
- Several prompts in one batch, the vision path, plugins, saved sessions, statistics and timing.
- Sockets, authentication and frame limits; a lost connection is an error reply.
- Placement of layers on a GPU, beyond counting them as pinned already.
- SentencePiece tokenizers and the Unicode range tables; the classifier is a parameter.
- Activation quantizers, the Q8_0 and Q5_K kernels, the row-major batch kernels, and the thread pool: loops run in sequence.
- The AVX2 shuffle tables appear as the lanes they select.
- Reports meant for people, and file input and output.
