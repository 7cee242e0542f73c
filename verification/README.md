# RadixForge, modelled and proved in Dafny

RadixForge serves language-model requests through llama.cpp and lets requests with a common token prefix
share key/value cache cells.  This project models the parts of it that are hard to get right and proves
what they promise.

**The cache lifecycle** is one state machine in four layers.

- `Tokens`, `RadixShape`, `Radix`: the radix tree.  Nodes live in an arena of identities, so a pointer a
  request holds stays meaningful while nodes are split, extended and pruned.  A ghost map `path` gives the
  token string each node spells.
- `KvState`, `Kv`: the mapper between tree nodes and physical sequence ids.  `kv[s]` is llama.cpp's view of
  sequence `s`, the tokens in its cells by position; `seq_cp` and `seq_rm` act on it.  `home`, `leaf` and
  `prompt` are ghost: where each id sits, which node each live request holds, and what it asked for.
  `Quiet()` is the invariant between operations.
- `Serving`, `Jobs`, `Batches`, `Worker`: the continuous-batching worker.  A decode succeeds or fails, a
  client cancels or does not, at any poll, by nondeterministic choice.  `Settled()` is the invariant between
  turns of the loop.  `Serving` defines what a computation with nothing cached would answer and which
  sequences of callbacks are allowed.
- `Stream`: the streaming branch of the HTTP server, as a step system over two threads.

**The text layer** is `Utf8`, `JsonGrammar`, `Unicode`, `JsonReading`, `JsonParser` and `JsonEscape`;
`Unicode` says what the tables and formulas of the others stand for, without them.
**Two algorithms** are separate: `Belady` (expert caching) and `ChunkCompose` (cache composition).

The main results:

- A ready id on a node holds exactly the tokens on the path to that node, in every state any sequence of
  operations leads to, so every copy takes over only cells computed for the new prompt's own tokens.
- However a request is served, what its client hears is what a computation without any cache says: two runs
  that answer a request to its end say the same (`Serving.SameAnswer`), and every token of every run is
  sampled from a sequence that holds exactly the prompt and the tokens said so far.  In plain numbers
  (`Serving.PlainlyTold`): `max_tokens` of them if the context has room for as many behind the prompt and
  four more tokens, as many as there is room for otherwise, one if one or none is asked for, and the last of
  these is the last piece.
- Reference counts are the numbers of live requests on the nodes, ids are conserved, and nothing a live
  request uses is ever evicted or pruned.
- With two usable ids, running out of them means that another request is live.  With one usable id this is
  false: with no request live a prompt is turned down exactly if the kept sequence sits on the node at which,
  or inside whose edge, the prompt ends, and nothing presses for its eviction (`Kv.KVMapper.PrepareSequence`).
  The worker then requeues the request in every turn, for ever, unless it is cancelled
  (`Worker.InferenceWorker.TurnInVain`); `Worker.WaitsForEver` reaches this.
- With `n_batch` >= 1 a turn that has anything to do leaves less of it, unless the worker is jammed: no job
  runs and the request in front starves, or no id is usable at all.  A jammed worker stays so until the
  request in front is found cancelled (`Worker.InferenceWorker.TakeTurn`).  So without new arrivals the
  worker drains in finitely many turns or ends jammed, and with two usable ids and `n_batch` >= 1 it drains
  (`Worker.InferenceWorker.Drain`).
- "No callback after the terminal one" is false of the code, and exactly this is true instead.  The logs
  the protocol lets through are pieces; pieces and a notice; pieces and a terminal callback; and at least
  one piece, the last piece and a notice (`Serving.ProtocolIs`), and after every run every log is one of
  these (`Worker.InferenceWorker.Serve`).  In a step the notice follows a generation's end if and only if
  the sampled token is not an end of text, one token remained, the poll before the token is told sees no
  flag, and the poll before the job is retired does (`Worker.InferenceWorker.RecordStep`, for all
  generations and all flags).
  `Worker.NoticeAfterTheEnd` is a run that gets there.
- What a prompt finds when it is inspected is what is then copied for it, with an id free and no pressure.
- A batch never has more entries than were allocated for it, because every generation keeps a slot.
- The tree is a prefix-closed set of strings, and looking before inserting predicts what inserting delivers.
- The parser accepts exactly the JSON grammar less its stated limits; escaping and parsing undo each other.
- No stream interleaving writes to a dead sink or without the lock; UTF-8 is cut only between characters.
- Eviction takes the nodes least recently used, in the order of the calls that used them, and no more of
  them than it takes to get under the watermark.
- The clairvoyant expert cache is optimal, and the LRU cache misses exactly on the experts that were never
  used before or with as many others in between as there are slots.
- Composed caches are filled left to right, each position once.

Where the code and its comments differ the model follows the code: `kv_mapper.h` says that eviction runs
until use is "below" the watermark, the code stops at or below it, or when nothing idle is left.

## Model

| member | source | states |
|---|---|---|
| Radix.RadixTree.constructor | src/radix_tree.cpp:10-13 | the tree starts with the root only, spelling nothing, with one reference |
| RadixShape.SplitShape | src/radix_tree.cpp:165-199 | after a split every child key, parent link and spelled string is consistent again |
| Radix.RadixTree.SplitNode | src/radix_tree.cpp:165-199 | ids, references and recorded length stay on the prefix; the suffix node is bare but for the tick; nothing else changes |
| Radix.RadixTree.FindPrefix | src/radix_tree.cpp:72-116 | the match is the longest prefix of the tokens that the tree spells, and the returned node spells exactly it |
| RadixShape.EndsOnOld | src/radix_tree.cpp:72-116 | the prompt ends on a node that was there before exactly if it ends at that node or inside the edge to it |
| Radix.RadixTree.Insert | src/radix_tree.cpp:15-40 | the tree then spells what it spelled before and the prefixes of the prompt, nothing else; one reference more, on the node that spells the prompt, which carries the new tick, later than every other stamp; every other payload unchanged |
| RadixShape.LeafSpells | src/radix_tree.cpp:26-34 | a new leaf adds exactly the prefixes of its string to the spelled set |
| Radix.RadixTree.PruneEmptyLeaves | src/radix_tree.cpp:55-62 | only unowned nodes on the way from the start up to the stop go, and the stop is the root, owned or has children |
| Radix.RadixTree.Release | src/radix_tree.cpp:47-53 | one reference less and the pruning that follows from it; nothing without a reference to give back |
| Radix.RadixTree.Evict | src/radix_tree.cpp:230-246 | an idle owner loses all its ids, then useless nodes are pruned; any other node is left alone |
| Radix.RadixTree.RegisterSeqId | src/radix_tree.cpp:248-253 | the id joins the node; the recorded length is set only if it was zero |
| Radix.RadixTree.MarkSeqIdReady | src/radix_tree.cpp:255-260 | the id becomes ready exactly if it sits on the node |
| Radix.RadixTree.ReleaseSeqId | src/radix_tree.cpp:262-279 | the caller must free the id exactly if it is there and not the sole ready one to be retained; freed, it leaves both sets and the recorded length is zero if nothing is left |
| Radix.RadixTree.ExtendSeqId | src/radix_tree.cpp:281-317 | a ready id moves to the node spelling all its tokens, grown for it and stamped later than all others, the tick counting on once for a new leaf and once for the move; otherwise nothing changes |
| Radix.RadixTree.CumulativeTokenDepth | src/radix_tree.cpp:64-70 | the depth is the length of the string the node spells |
| Radix.ConsiderOne | src/radix_tree.cpp:118-131 | taking one more node into account keeps ready and pending coverage the best among the nodes seen, pending meaning that an id of the node is not ready |
| Radix.RadixTree.InspectPrefix | src/radix_tree.cpp:133-163 | the longest spelled prefix and the best ready and pending coverage of all nodes the string touches, with nothing changed |
| Radix.AssessedIds | src/radix_tree.cpp:118-163 | no id that is not ready covers more than is reported pending and no ready one more than is reported ready, and what is reported such an id covers |
| Radix.RadixTree.FindCoveringSeqId | src/radix_tree.cpp:325-348 | the nearest ready ancestor's least id, or some ready node below when no ancestor is ready; none exactly when nothing related is ready |
| Radix.RadixTree.IdleOwners | src/radix_tree.cpp:201-220 | the search from the root finds exactly the unreferenced non-root nodes that own ids |
| Radix.RadixTree.FindEvictionCandidates | src/radix_tree.cpp:201-228 | distinct idle owners, oldest access first, and none left out that was used earlier than one chosen |
| Radix.InspectPredicts | src/radix_tree.cpp:118-163 | inspection sees the match that insertion makes; a ready coverage r comes back as the length of the copy source; without one any source lies below the match and covers it |
| KvState.InsertKeeps | src/radix_tree.cpp:15-40 | inserting a prompt, with any split, keeps ids, references, faithfulness and prompts consistent |
| KvState.NarrowFaithful | src/radix_tree.cpp:165-199 | a split leaves every ready id holding what its now shorter node spells |
| KvState.PruneKeeps | src/radix_tree.cpp:55-62 | pruning removes no node a live request holds and none an id sits on |
| KvState.MoveKeeps | src/radix_tree.cpp:303-317 | moving a ready id to the node for its whole view keeps every invariant of the tree |
| KvState.TrimKeeps | src/kv_mapper.cpp:134-140 | cutting a view down to what its node spells keeps it faithful |
| KvState.DropRefKeeps | src/radix_tree.cpp:47-53 | giving back a live request's reference keeps counts equal to the numbers of live requests |
| Kv.KVMapper.constructor | src/kv_mapper.cpp:9-15 | the pool is 1, 2, ..., max_sequences - 1, all views are empty, and the invariant holds |
| Kv.KVMapper.AlwaysFaithful | src/kv_mapper.cpp:17-142 | in every quiet state a ready id holds the tokens on the path to its node, from position 0 on, is counted, and is not free |
| Kv.KVMapper.IdsConserved | src/kv_mapper.cpp:9-15 | in every quiet state the free queue has no duplicates, free and tracked ids partition 1 .. max_sequences - 1, and the tracked ones are those on the nodes, each on one |
| Kv.KVMapper.RetainedIsExact | src/kv_mapper.cpp:134-140 | a retained sequence belongs to no request, is ready, the only such on its node, and counted by the positions it holds |
| Kv.CopiesOwnTokens | src/kv_mapper.cpp:42-58 | what is copied for a prompt from the reported source are cells of the prompt's own leading tokens |
| Kv.KVMapper.CopyFromSource | src/kv_mapper.cpp:39-70 | the copied length is the match where the source goes as far and all of the source where it does not, less one token for a whole non-empty prompt, and the new view is that prefix of the prompt |
| Kv.KVMapper.Reserve | src/kv_mapper.cpp:17-43 | after pressure eviction, insertion and allocation the prompt's node and cache node are in the tree, spelling the prompt and the longest match of what the eviction left; nothing has gone that pressure or want of an id did not call for; the prompt's node is the one used last |
| Kv.KVMapper.BookAndTake | src/kv_mapper.cpp:24-36 | the prompt is booked and gets the front of the queue, or after one eviction at most, never of its own node, the id of the least recently used idle node |
| Kv.KVMapper.Book | src/kv_mapper.cpp:24-25 | the prompt is inserted with one reference; match and nodes are those of the tree as it was; which ids are ready does not change |
| Kv.KVMapper.Settle | src/kv_mapper.cpp:71-73 | the id joins the prompt's node pending, counted by cached_pos, and the booked reference becomes its own |
| Kv.KVMapper.Unbook | src/kv_mapper.cpp:74-83 | on exhaustion the reference is given back, and the tree afterwards is the one before less the unowned nodes that pruning from there removes; ids, views and readiness are as before |
| Kv.KVMapper.GiveUp | src/kv_mapper.cpp:74-83 | after exhaustion the tree spells nothing it did not spell before the request; with two usable ids another request is live; with none live the sole kept sequence sits on the prompt's own node |
| Kv.CacheNodeSurvives | src/kv_mapper.cpp:25-43 | the node that holds the booked reference, and its parent, survive the eviction inside allocation |
| Kv.KVMapper.PrepareSequence | src/kv_mapper.cpp:17-91 | prepared: a fresh id, the front of the queue if any was free, whose view is the prompt up to cached_pos, which is exactly what the match and the reported source allow, with the rest as delta, never empty for a non-empty prompt; with an id free and no pressure always prepared, copying what inspection promised; exhausted: the reference is undone, the pool empty, no string spelled that was not spelled before and, with two usable ids, another request live; with one usable id and none live, exhausted if and only if the kept id sits where the prompt ends and nothing presses; with no usable id always exhausted; nothing is evicted that pressure or want of an id did not call for, least recently used first; evicted views are emptied, all others unchanged |
| Kv.KVMapper.Fill | src/kv_mapper.cpp:39-73 | the id's view is the prompt up to cached_pos, exactly what match and reported source allow and never a whole non-empty prompt; registering it pending leaves that source the reported one |
| Kv.ForetoldByInspection | src/kv_mapper.cpp:17-70 | the tokens copied are the ready ones inspection reported, less one for a whole prompt; with none ready, none or all that match |
| Kv.ExhaustedHasPeer | src/kv_mapper.cpp:177-217 | with max_sequences >= 3, an empty pool and no idle owner mean that some other request is live |
| Kv.OneUsableIdStarves | src/kv_mapper.cpp:25-36 | with max_sequences == 2 a prompt asked for again is refused although no request is live, so the bound of two ids is sharp |
| Kv.KVMapper.MarkSequenceReady | src/kv_mapper.cpp:93-98 | a decoded prompt's id becomes ready and is counted with the recorded length of its node, which is the number of its cells only if that length is; the invariant holds |
| Radix.LongRecord | src/radix_tree.cpp:248-253 | a prompt that ends inside the edge to the node of a longer one is recorded with the length of that, more than the prompt |
| Radix.ShortRecord | src/radix_tree.cpp:301-316 | when a ready sequence finishes inside the edge to a pending prompt's node, that node is recorded with the length of the finished one, less than the prompt |
| Kv.KVMapper.SetSequenceCellCount | src/kv_mapper.cpp:100-105 | a tracked id's count is replaced, negative values by zero, an untracked one stays untracked; the invariant survives if and only if the id is untracked, in use, or its new count is the number of cells it holds |
| Kv.KVMapper.ExtendSequence | src/kv_mapper.cpp:107-118 | the id moves to the node for everything it holds, counted by it, recorded with that length and used later than all others; with the cache off nothing moves |
| Kv.KVMapper.InspectPrefix | src/kv_mapper.cpp:120-123 | what a prompt would find, without changing anything |
| Kv.KVMapper.ReleaseSequence | src/kv_mapper.cpp:125-142 | kept exactly if caching, ready and alone on its node, trimmed to and counted by what the node spells; else freed to the end of the queue and emptied; a second release changes nothing |
| Kv.CoversItself | src/kv_mapper.cpp:134-140 | the covering id found for a retained node is the retained one, at the node's depth |
| Kv.KVMapper.Finish | src/worker.cpp:219-222 | releasing a sequence and its reference leaves every other sequence's place, view, count and readiness unchanged, every stamp as it was and the mapper quiet; the id is kept, counted by its cells, or empty at the end of the queue; a node that keeps a cached sequence stays |
| Kv.KVMapper.GiveBackReference | src/radix_tree.cpp:47-53 | giving the reference back leaves every node that owns an id in the tree, spelling what it spelled |
| Kv.OneSpare | src/radix_tree.cpp:262-279 | a node's reference count is the number of live requests on it and it owns at most one id more |
| Kv.VictimIsNobodys | src/radix_tree.cpp:201-246 | no id of an idle node belongs to a live request |
| Kv.KVMapper.EvictOne | src/kv_mapper.cpp:195-217 | the least recently used idle node's ids, at least one, go to the end of the pool with empty views, no other view changes; false exactly when there is none |
| Kv.KVMapper.FreeAll | src/kv_mapper.cpp:207-213 | the evicted ids are emptied, untracked and appended to the free queue, and only they |
| Kv.KVMapper.EvictKvPressure | src/kv_mapper.cpp:219-229 | ends with tracked cells at or below the watermark or no idle owner left; whatever is left idle was used no earlier than anything evicted; without its last eviction it would still be over the watermark; live sequences are untouched and only nodes nobody owns or references go |
| Kv.KVMapper.KvCellsUsed | src/kv_mapper.cpp:231-236 | the sum of all tracked counts |
| Kv.KVMapper.AllocateSeqId | src/kv_mapper.cpp:177-193 | the front of the queue; if that was empty, after the eviction of exactly one node, the idle one least recently used; failure only with no idle owner |
| Kv.KVMapper.EvictIdleSequence | src/kv_mapper.cpp:152-155 | evicts exactly if there is an idle owner, namely the one least recently used, and nothing of a live request |
| Kv.PendingIsLive | src/radix_tree.cpp:118-131 | pending coverage beyond the ready one means that a live request has an id that is not ready |
| Serving.ProtocolKept | src/worker.cpp:55-63 | an unbroken log has at most one terminal callback and only a cancellation notice, at most one, after it, and that only behind a last piece that is not the first |
| Serving.ProtocolIs | src/worker.cpp:55-63 | the protocol lets through exactly the logs of one of four shapes; a notice comes after a terminal callback exactly in the last of them |
| Serving.LateNotice | src/worker.cpp:403-437 | a true log in which a notice follows the end has told all the tokens the cold computation gives up to the limit, which is at least two |
| Serving.PlainlyTold | src/worker.cpp:387-510 | in plain numbers: the i-th token is sampled from the prompt and the tokens before it; the last piece is number max_tokens, the first if that is one or less, the last the context has room for if it is more, and no other piece comes so late; an end of text comes earlier |
| Serving.TrueAppend | src/worker.cpp:387-426 | a log that says what the cold computation says goes on doing so with the next sampled token, last piece, end of text, error or notice |
| Serving.SameAnswer | src/worker.cpp:387-510 | two runs that answer a request to its end say the same tokens |
| Worker.InferenceWorker.IsCancelled | src/worker.cpp:55-63 | the notice is given once, at the first poll that sees the flag, and the flag stays seen |
| Worker.InferenceWorker.RetireJob | src/worker.cpp:208-222 | at the end of text, unless the first poll sees the flag, the sequence is extended and what was decoded stays in the tree, owned by a sequence, otherwise the tree gets no node; the client hears exactly the end of text, or the notice if either poll sees the flag, and nothing otherwise; everything the job held is released |
| Worker.InferenceWorker.Sweep | src/worker.cpp:226-246 | for every outcome of the polls exactly the generations and prefills whose flag reads set leave, having heard the notice once; all others stay as they are, in their order |
| Worker.InferenceWorker.PollActive | src/worker.cpp:226-229 | for every outcome of the polls exactly the generations whose flag reads set, or did before, are marked, and their clients hear the notice once |
| Worker.InferenceWorker.AbandonPrefills | src/worker.cpp:239-246 | for every outcome of the polls exactly the prefills whose flag reads set, or did before, leave; the others keep their order |
| Worker.InferenceWorker.BuildBatch | src/worker.cpp:248-296 | one entry per generation, then one run per prefill in order, none begun before all earlier prompts are submitted to their ends, the batch full or every prompt submitted; logits exactly at the end of each generation's and each completed prompt's run; not empty when there is work and room; never more than n_batch entries |
| Batches.StorePlans | src/worker.cpp:255-291 | such a batch writes every sequence's next cells in order, none twice, none left out |
| Batches.PlansFit | src/worker.cpp:255-291 | every entry's position is the next one of its sequence and below n_ctx |
| Batches.LogitsOf | src/worker.cpp:271-291 | the logits at a run's end depend on the whole of its sequence |
| Worker.InferenceWorker.LlamaDecode | src/worker.cpp:305-309 | success stores all tokens, failure nothing; only batches of one to n_batch entries, in order and within the context, are handed over |
| Worker.InferenceWorker.DecodeStep | src/worker.cpp:305-309 | a full cache is retried exactly if there is an idle sequence to evict, once, and touches no job's sequence; the status is that of the last try; a failure leaves all jobs settled |
| Batches.AllDue | src/worker.cpp:372-384 | after success exactly the submitted prompt parts and the generations' tokens are in the cache and not yet recorded |
| Worker.InferenceWorker.RecordPrefills | src/worker.cpp:372-384 | exactly the submitted parts are recorded, prompts that are complete become ready holding exactly the prompt, and only they have logits, at most one prompt per submission |
| Worker.InferenceWorker.RecordSubmission | src/worker.cpp:376-384 | one part is recorded, the prompt marked ready exactly if that completes it |
| Worker.InferenceWorker.RecordActive | src/worker.cpp:387-426 | one generation's record takes in its token, its count becomes pos + 1, and its client hears exactly what the next sampled token and the polls call for |
| Worker.InferenceWorker.GoOn | src/worker.cpp:387-426 | end of text, last piece, next piece or cancellation, exactly as the token sampled from the whole sequence and the two polls decide; the log stays true to the cold computation |
| Worker.InferenceWorker.RecordActives | src/worker.cpp:387-426 | every generation's record catches up with its cells, each has less left to do, and each client hears exactly what its token and its polls call for |
| Worker.InferenceWorker.RetireDone | src/worker.cpp:427-437 | the generations that stay are the ones not finished, in their order, and the client of each finished one hears exactly what its polls and its way of finishing call for |
| Worker.InferenceWorker.RetireOne | src/worker.cpp:427-437 | a finished generation leaves, having heard exactly what the polls and its way of finishing call for, in that order |
| Worker.NoticeExactly | src/worker.cpp:387-437 | what a generation's client hears in a step ends in a notice behind the end if and only if the token is the last one, not an end of text, the first poll sees no flag and the retiring one does |
| Worker.InferenceWorker.RecordStep | src/worker.cpp:372-510 | for every generation and every outcome of the polls its client hears exactly what the token and the polls call for, with a late notice under that condition only; the clients of exactly the prompts completed hear their answers; everything decoded is recorded and retired, with less left to do |
| Worker.InferenceWorker.Advance | src/worker.cpp:305-510 | status 0: recorded, answered and retired; 1: the newest job alone fails with 503; any other: every job fails with 500; each client hears exactly what that and its flag call for |
| Worker.InferenceWorker.LastThenNotice | src/worker.cpp:403-437 | a generation with one token to go whose flag is first seen by the retiring poll hears its last piece and then the notice |
| Worker.NoticeAfterTheEnd | src/worker.cpp:403-437 | a run of the worker from its start in which the client hears a piece, the last piece and the notice |
| Worker.FirstToken | src/worker.cpp:443-503 | the first token ends the answer at the end of text or at a limit of one, max_tokens 0 included, or starts a generation with max_tokens - 1 tokens to go at the position behind the prompt |
| Worker.InferenceWorker.CompletePrefill | src/worker.cpp:443-503 | the client hears exactly the end of text, its last piece, its first piece, or the notice; the generations stay as they were, with this job added at their end exactly if it heard a first piece, with max_tokens - 1 tokens to go at the position behind the prompt |
| Worker.InferenceWorker.Promote | src/worker.cpp:438-510 | for every outcome of the polls: the client of every completed prompt hears exactly its answer or the notice, those that go on are added to the generations in order, no completed prompt is left among the prefills, and nobody else has heard anything |
| Worker.InferenceWorker.Fail | src/worker.cpp:328-342 | a failed job's client hears exactly the status, or the notice if cancelled, and everything is released |
| Worker.InferenceWorker.FailNewest | src/worker.cpp:343-353 | only the newest generation goes, or with none the newest prefill, and its client hears exactly 503, or the notice if its flag reads set |
| Worker.InferenceWorker.FailActive | src/worker.cpp:328-335 | a generation is removed, its client told the status unless cancelled |
| Worker.InferenceWorker.FailPrefill | src/worker.cpp:336-342 | the same for a prefill |
| Worker.InferenceWorker.FailAll | src/worker.cpp:354-365 | every job goes, and each client hears exactly 500, or the notice if its flag reads set |
| Worker.InferenceWorker.FailActives | src/worker.cpp:328-335 | the generations fail in their order, each client hearing 500 or the notice |
| Worker.InferenceWorker.FailPrefills | src/worker.cpp:336-342 | the prefills fail in their order, each client hearing 500 or the notice |
| Worker.InferenceWorker.FusedStep | src/worker.cpp:224-510 | a step sweeps, and decodes exactly if a generation is left, or a prefill and room for an entry, with the outcome its status calls for; it keeps the whole invariant; with room for one entry a step with any job leaves strictly less to do |
| Worker.UnreadyIsPrefill | src/worker.cpp:133-141 | a live id that is not ready is that of a prefill with tokens left to decode |
| Worker.InferenceWorker.PrepareOne | src/worker.cpp:84-193 | a request is dropped exactly if its flag is seen, refused with 400 (too long) or 500 (empty), deferred exactly if pending coverage exceeds the ready one, which only a prefill that can advance causes and any prefill does whose node covers more, put back, or started with its limit clamped; with an id free and no pressure its cached_pos is what inspection promised; with one usable id and no job it is put back only if it starves, and starves still |
| Worker.InferenceWorker.Start | src/worker.cpp:143-192 | a checked request is prepared and becomes the last prefill, is refused with 500 if empty, or stays waiting when ids have run out |
| Worker.InferenceWorker.TurnBack | src/worker.cpp:175-183 | an empty prompt's sequence and reference are released and its client hears 500 |
| Worker.InferenceWorker.QueueRest | src/worker.cpp:158-167 | after exhaustion every remaining request is put back, behind the one that found no id and in the order of admission, or found cancelled, exactly as its flag reads |
| Worker.InferenceWorker.PrepareAll | src/worker.cpp:79-195 | every request ends up in exactly one of prepared, deferred, queued, refused and cancelled, the last exactly if its flag reads set, in each of these in the order of admission; nobody else hears anything; with two usable ids nothing is put back while no job runs |
| Worker.InferenceWorker.DeferToFront | src/worker.cpp:197-205 | the requests come first in the queue, in their order |
| Worker.InferenceWorker.Enqueue | src/worker.cpp:33-40 | the request joins the end of the queue with an empty log |
| Worker.InferenceWorker.Admit | src/worker.cpp:532-536 | requests are taken from the front as long as jobs and admitted stay below the limit |
| Worker.InferenceWorker.Intake | src/worker.cpp:532-554 | as many are admitted as there is room for; of these, whatever cannot run now is back at the front, queued before deferred, ahead of everything that was not admitted, and the rest runs, is refused or cancelled; unless the worker was jammed, less is left to do or a job runs |
| Worker.InferenceWorker.RunOnce | src/worker.cpp:517-560 | a turn admits and then steps, keeping the invariant; what goes back is at the front of the queue, those without an id before the deferred ones, each in the order of admission; with work and n_batch >= 1 strictly less is left to do unless the worker is jammed; a stuck worker stays stuck until its front request is cancelled |
| Worker.InferenceWorker.TakeTurn | src/worker.cpp:517-560 | a turn with work leaves strictly less to do, or the worker was jammed and is, with nobody told anything, or n_batch < 1 and a job waits; a jammed one gets on only by finding its front request cancelled |
| Worker.InferenceWorker.TurnInVain | src/worker.cpp:517-560 | however many turns a worker with one usable id takes, a starving request at its front is cancelled or still there having heard nothing, and nobody behind it has been served |
| Worker.WaitsForEver | src/worker.cpp:153-167 | after the mapper has served and kept [7] with one usable id, a request for [7] hears nothing in any number of turns unless cancelled |
| Worker.InferenceWorker.Serve | src/worker.cpp:512-566 | after any arrivals and turns, whatever the flags and the library answer, the cache agrees with tree and jobs, every log has only grown, is of an allowed shape, true to the cold computation and right in plain numbers, and whoever has left heard the end or is cancelled |
| Worker.InferenceWorker.Drain | src/worker.cpp:512-566 | without arrivals the loop terminates: drained, with nothing waiting, running or live and every client told the end or, if cancelled, the notice of that; or jammed, or with n_batch < 1 and a job waiting; with two usable ids and n_batch >= 1 always drained; every log is true, also in plain numbers, and allowed |
| Worker.InferenceWorker.Shutdown | src/worker.cpp:567-573 | every sequence in use is released and no request is live |
| Stream.ProviderKeepsLocks | src/http_server.cpp:256-386 | each provider step keeps who holds the mutex and that writes happen only before anybody has finished or given up |
| Stream.WorkerKeepsLocks | src/http_server.cpp:263-345 | each step of a callback keeps the same |
| Stream.WorkerKeepsFlags | src/http_server.cpp:263-345 | done without cancelled means the end mark was written; a terminal callback that has returned left done or cancelled set |
| Stream.StreamIsSafe | src/http_server.cpp:243-386 | in every run every write is made under the mutex and before the provider returns; whenever a callback asks the sink or writes to it, it holds the mutex and the provider has neither returned nor begun to close the sink; returning true means exactly one end mark, the last write; returning false means cancelled |
| Stream.NobodyWaitsForever | src/http_server.cpp:365-386 | once the worker has nothing more to say a waiting provider finds done set |
| Utf8.CompleteUtf8PrefixLength | src/openai_api.cpp:119-151 | the cut is before the last lead byte exactly if that calls for more bytes than follow, and holds back at most three |
| Utf8.CutIsWhole | src/openai_api.cpp:119-151 | for any prefix of valid UTF-8 the cut is exactly after its last complete character |
| Utf8.ChunkBuffer.OnToken | src/http_server.cpp:275-283 | content and what is held back are the old remainder and the token; nothing is held back by the last event |
| Utf8.StreamAnswer | src/http_server.cpp:263-345 | for every split into pieces the events concatenate to the pieces, lag at most three bytes, and are each valid if the whole is |
| JsonGrammar.EncodeIsValid | include/radixforge/json_minimal.h:348-364 | every code point that is not a surrogate is encoded as one valid UTF-8 character |
| Unicode.EncodeDecodes | include/radixforge/json_minimal.h:348-364 | every scalar value is encoded in as few bytes as hold it, marked as lead and continuation, and the payload bits give it back |
| Unicode.DecodeEncodes | include/radixforge/json_minimal.h:348-364 | every complete character is the encoding of the scalar value its payload bits give |
| Unicode.ValidDecodes | src/openai_api.cpp:119-151 | text counted as valid UTF-8 is the encoding of scalar values |
| Unicode.EncodeAllIsValid | src/openai_api.cpp:119-151 | the encoding of any scalar values is counted as valid UTF-8 |
| Unicode.PairSplits | include/radixforge/json_minimal.h:332-346 | high and low surrogate are recovered from the code point of a pair |
| Unicode.PairReaches | include/radixforge/json_minimal.h:332-346 | every code point from 0x10000 on is that of the pair its bits give |
| Unicode.Surrogates | include/radixforge/json_minimal.h:332-346 | the code units that are surrogates are exactly those that are no scalar value |
| Unicode.ShortEscapes | include/radixforge/json_minimal.h:143-167 | which letters a backslash may precede, and the control character each of b, f, n, r and t stands for |
| Unicode.HexDigits | include/radixforge/json_minimal.h:309-317 | a hexadecimal digit is the character at its value in the row of digits, in either case, and no other byte is one |
| Unicode.HexDigitsAll | include/radixforge/json_minimal.h:309-317 | every character of the row of digits, in either case, has its place as its value |
| Unicode.CodeUnitDigits | include/radixforge/json_minimal.h:319-330 | the four digits of a code unit are those of its value to the base 16 |
| Unicode.Classes | include/radixforge/json_minimal.h:296-300 | white space is blank, tab, line feed and carriage return, and digits are 0 to 9 |
| Unicode.Punctuation | include/radixforge/json_minimal.h:102-122 | the bytes the parser looks for are the characters of JSON and its three words |
| Unicode.Numerals | include/radixforge/json_minimal.h:235-274 | what a numeral is, in characters: no leading zero, digits, and an exponent marked by e or E and a sign at most |
| JsonGrammar.FirstWins | include/radixforge/json_minimal.h:193-194 | of several members with a key the first one counts, and every key is there |
| JsonReading.StringSound | include/radixforge/json_minimal.h:128-177 | whatever is read as a string is the spelling of string elements with that meaning |
| JsonReading.StringComplete | include/radixforge/json_minimal.h:128-177 | every spelling of string elements is read, up to its closing quote, as its meaning |
| JsonReading.NumberSound | include/radixforge/json_minimal.h:235-274 | whatever is read as a number is a numeral of the grammar |
| JsonReading.NumberComplete | include/radixforge/json_minimal.h:235-274 | every numeral is read in full when what follows cannot continue it |
| JsonReading.ValueSound | include/radixforge/json_minimal.h:102-274 | whatever is read as a value is derived by the grammar, within the depth left, with that meaning |
| JsonReading.ValueComplete | include/radixforge/json_minimal.h:102-274 | every value of the grammar within the depth left is read as its meaning |
| JsonReading.ReadsTheGrammar | include/radixforge/json_minimal.h:88-308 | a text is accepted with a value if and only if the grammar derives it with that value, no value has more than 64 containers around it and all numbers are finite |
| JsonReading.Unambiguous | include/radixforge/json_minimal.h:88-308 | no text has two meanings |
| JsonParser.Parser.SkipWs | include/radixforge/json_minimal.h:296-300 | the position moves past exactly the white space |
| JsonParser.Parser.Expect | include/radixforge/json_minimal.h:302-307 | succeeds exactly if the next byte after white space is the expected one |
| JsonParser.Parser.ParseUnicodeCodeUnit | include/radixforge/json_minimal.h:319-330 | four hexadecimal digits and their value, or an error |
| JsonParser.Parser.AppendUnicodeEscape | include/radixforge/json_minimal.h:332-346 | a code unit or a surrogate pair in UTF-8; unpaired surrogates are errors |
| JsonParser.Parser.ParseString | include/radixforge/json_minimal.h:128-177 | moves and returns exactly as reading a string does |
| JsonParser.Parser.ParseNumber | include/radixforge/json_minimal.h:235-274 | moves over and returns exactly the number's text, or errs where reading does |
| JsonParser.Parser.ParseWhole | include/radixforge/json_minimal.h:236-251 | the sign and the digits before any fraction, without a leading zero |
| JsonParser.Parser.ParseFraction | include/radixforge/json_minimal.h:252-269 | fraction and exponent, each with at least one digit if begun |
| JsonParser.Parser.ParseLiteral | include/radixforge/json_minimal.h:276-294 | succeeds and moves exactly if the word comes next |
| JsonParser.Parser.ParseKey | include/radixforge/json_minimal.h:188-192 | moves and returns exactly as reading a key and its colon does |
| JsonParser.Parser.ParseArray | include/radixforge/json_minimal.h:210-233 | moves and returns exactly as reading an array does |
| JsonParser.Parser.ParseObject | include/radixforge/json_minimal.h:179-208 | moves and returns exactly as reading an object does |
| JsonParser.Parser.ParseValue | include/radixforge/json_minimal.h:102-122 | moves and returns exactly as reading a value does; terminates on every input |
| JsonParser.Parse | include/radixforge/json_minimal.h:88-95 | returns a value exactly for the accepted texts, namely theirs |
| JsonEscape.JsonEscape | src/openai_api.cpp:26-57 | the loop computes the byte-wise escape |
| JsonEscape.EscapeTable | src/openai_api.cpp:26-57 | quote, backslash, line feed, carriage return and tab get their two-character escapes, other control bytes \u00 and two lower-case digits, and all other bytes stay |
| JsonEscape.EscapeConcat | src/openai_api.cpp:26-57 | escaping distributes over concatenation |
| JsonEscape.EscapeRoundTrip | src/openai_api.cpp:26-57 | reading the escape of any byte string gives the string back |
| JsonEscape.QuotedRoundTrip | src/openai_api.cpp:26-57 | the quoted escape of any byte string is a JSON text that means it |
| JsonEscape.ErrorRecovered | src/openai_api.cpp:59-61 | the error text reads as an object whose error has the message, byte for byte, and the plain type |
| Belady.BuildNextUse | scripts/moe_study/analyze.py:196-199 | every expert's stack holds its uses, the next one on top |
| Belady.Furthest | scripts/moe_study/analyze.py:211-214 | no victim is used later than the chosen one |
| Belady.PopUses | scripts/moe_study/analyze.py:202-204 | popping the needed experts leaves every stack at the uses after this token |
| Belady.ServeToken | scripts/moe_study/analyze.py:205-216 | the needed experts come in, one miss for each that was not there; if anything goes the cache is full and nothing kept beyond the needed is used later |
| Belady.LeadStep | scripts/moe_study/analyze.py:201-216 | for every horizon no policy gets ahead by more than it has paid in extra loads |
| Belady.ClairvoyantIsOptimal | scripts/moe_study/analyze.py:189-217 | no policy starting empty with c slots that ends each token with its experts resident loads less |
| Belady.BeladyLayer | scripts/moe_study/analyze.py:194-216 | the misses of a layer are the least possible loads |
| Belady.RunBelady | scripts/moe_study/analyze.py:189-217 | the result is the sum of the layers' optima |
| Belady.TouchToken | scripts/moe_study/analyze.py:176-185 | an LRU cache with a slot per needed expert holds them all after the token, counts exactly its misses, and these cover what it loaded |
| Belady.Access | scripts/moe_study/analyze.py:179-185 | a hit moves to the end, a miss is appended and the oldest dropped when there are too many; what the token accessed before stays |
| Belady.LruIsRecency | scripts/moe_study/analyze.py:176-185 | after any tokens the cache holds the last used experts in the order of their last use, and has missed exactly on the accesses to experts never used before or with c others in between |
| Belady.SimulateLru | scripts/moe_study/analyze.py:151-186 | the result is the sum of the layers' LRU misses, each the number of accesses to experts not used recently enough, and each layer's cache is a policy whose loads its misses cover |
| Belady.CompareLru | scripts/moe_study/analyze.py:151-217 | belady is the sum of the layers' optima, each of which is at most that layer's LRU misses, so the LRU simulation never does better |
| Belady.OptimumIsUnique | scripts/moe_study/analyze.py:189-217 | the least possible loads are one number, so what belady returns is determined |
| ChunkCompose.Memory.Decode | tools/chunk_spike.cpp:179-201 | tokens go into the next positions of the sequence, which must end where they start; other sequences stay |
| ChunkCompose.PrecomputeChunks | tools/chunk_spike.cpp:484-509 | every chunk's blobs hold the chunk alone and behind the prefix, and the scratch sequence is empty again |
| ChunkCompose.AttachTail | tools/chunk_spike.cpp:511-530 | the chunk's tokens beyond the recomputed head are put where they belong, into free positions; where the target ends there, it is continued by exactly them |
| ChunkCompose.PlaceChunk | tools/chunk_spike.cpp:591-611 | target and queue together grow by the chunk's computed head and cached tail |
| ChunkCompose.HeadOf | tools/chunk_spike.cpp:591-600 | a chunk is recomputed whole if all are or it is selected, any other but the first up to the head, the first not at all |
| ChunkCompose.RunVariant | tools/chunk_spike.cpp:546-618 | for every chunk list and selection the target is prefix, chunks and suffix, each position filled once from left to right, and computed is the number of tokens decoded into it |
| ChunkCompose.ComposeItem | tools/chunk_spike.cpp:767-780 | precomputing an item's chunks gives exactly the blobs composing a variant needs, so the result holds for every item and variant |
| ChunkCompose.Independent | tools/chunk_spike.cpp:750-765 | attaching an import of a blob seven positions beyond the prefix changes nothing that importing the blob again gives |
| ChunkCompose.RunItem | tools/chunk_spike.cpp:748-786 | every variant of an item is composed from the same blobs, with exact counts of computed tokens, the target empty and the prefix intact after each; the two probes see the same cells |
| ChunkCompose.ChunksSay | tools/chunk_spike.cpp:591-611 | the composed cells carry the chunks' tokens in order |

## Left out

- llama.cpp, tokenization, chat templates, sampling and GPU work: a decode is a nondeterministic success or failure, a request carries its tokens, and sampling is a function of the request and of what its sequence holds.
- Callbacks are taken to be installed, as the HTTP server does; a request without one would hear nothing.
- The cancellation flag is taken to stay set once set, as `StreamState::cancelled` does.
- Exceptions other than exhausted capacity, and the loop's catch-all for them, are not modelled; nor is allocation failure inside `prepare_sequence`.
- Integer widths: token counts, positions and ticks are unbounded integers; the watermark is an integer bound.
- Null node pointers, which the source answers by doing nothing: a node argument is always a node of the tree.
- Locks of tree and mapper: each locked region is one atomic step.
- The order in which an unordered container is walked is arbitrary; the eviction search takes its pending nodes from a set.
- Timing, metrics, logging, `to_json`, node and sequence counters, `gc_if_needed` and `defrag`.
- HTTP routing, the non-streaming handler, request-body parsing, completion, timing and usage texts, the command line.
- The streaming provider is entered once; cpp-httplib calling it again after it returned is not modelled.
- Numbers are lexemes; whether `stod` yields a finite value is a parameter of the parser.
- Chunk selection by BM25 or gold marks is an arbitrary list of flags; KL, F1, profiles, prefetching and the other scripts.
- ChunkCompose.RunItem: an item without chunks or with an empty suffix is excluded, because the source takes the first element of both.
- Worker.InferenceWorker.LastThenNotice: the polls of the sweep at the start of a step are left out of this run, because with no flag set they change nothing.
- Worker.InferenceWorker.Shutdown: does not state what clients hear, because the source tells them nothing.
- Kv.KVMapper.MarkSequenceReady: the count it records may exceed or fall short of what the sequence holds, as in the source; it is exact if and only if the recorded length of the node is the number of cells, and counts are always exact for prepared and retained sequences.
- Radix.RadixTree.PruneEmptyLeaves: does not promise a tree without empty leaves, because a split suffix can become one that no pruning visits.
- Radix.RadixTree.FindCoveringSeqId: does not promise the longest cover, because a ready ancestor is preferred to a deeper descendant.
