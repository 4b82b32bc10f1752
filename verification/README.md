# Garuda: the optimisations do not change the answer

Garuda is an inference engine whose fast paths all promise the answer of a slow path. It batches and chunks, guesses
ahead and rolls back, pages state to disk, unpacks weights inside a dot product, merges with a lazily cleaned heap. Each
promise is a refinement between two pieces of code, and this project states and proves them one by one.

| area | files | main result |
|---|---|---|
| Decode loop | `Backend`, `Runtime`, `Batching` | Speculative, batched and chunked decoding give a greedy request the tokens and stop reason of repeated plain steps, which are the one reply the logits and the bounds allow. |
| Sampling | `Sums`, `Sampling` | Guess-and-verify gives every finite string the probability plain sampling gives it. |
| Scheduler | `Ledger`, `Desk`, `Scheduler` | Any run keeps the counters and permits balanced, admits in priority order, and gives every client that stays its whole reply and its reason, or the error that ended it. |
| Sequence state | `Bytes`, `Pages`, `KvCache`, `SpillFiles`, `PromptCache`, `Paging` | Paging to disk refines a list, and what it leaves on disk is what the forward pass allows; no sequence's step touches another's files. |
| Forward pass | `Forward`, `Hybrid`, `Passes`, `Rounds`, `Rollback`, `Together`, `Contract`, `Narrow`, `Experts` | Layer-major chunks, recorded rounds with rollback, shared batches and expert grouping equal one token at a time, and meet the contracts the decode loop is proved against. |
| Quantised kernels | `Formats`, `Quants`, `Kernels`, `Dots`, `Decoders`, `Plain`, `Numbers`, `Activations` | Every fused integer dot equals dequantise-then-dot, and is near the exact product; the stored numbers are what the rules of their formats leave. |
| Tokenizers | `Heap`, `Spm`, `Utf8`, `Pattern`, `Split`, `Bpe` | Heap merge equals naive greedy merge; the hand-run pre-tokenizer equals a backtracking matcher; the ids are the one tokenisation there is, and spell the text; round trip; streaming equals batch. |
| Weight bytes | `Stream` | A row is the same file bytes held, mapped or streamed, under every interleaving of readers. |
| Small cores | `Gguf`, `Spelled`, `Civil` | Parsing inverts writing and accepts nothing else; the timestamp is the calendar's. |

Objects that the engine updates in place are classes (`Session`, `Pending`, `Scheduler`, `KVCacheState`, `SeqState`,
`PromptCache`, `BpeStreamDecoder`, `Cursor`, `BlockStreamer`), in-place algorithms work on arrays or reassigned
sequences, and each method is proved against a function or predicate whose own properties are lemmas.

Four properties one might expect are false of the code, and are stated as they are, with an example and the exact
condition:

- The default `logits_batch` (garuda/src/core/mod.rs:330-347) runs the sequences in turn and stops at the first failure.
  The ones ahead of it have been advanced by then, and the fallback in `next_token_batch` ends them with `ContextFull`.
  `Batching.DefaultBatchStarves` is an example; `Batching.BatchMatchesPlainIff` is the condition: a live request with a bad
  last token is first, or there is none, or the backend looks before it leaps.
- `SeqState::truncate` says that a refusal changes nothing, but looks only at the recurrent layers first. A layer that
  would cut a spilled block refuses after the memories have been rewound and earlier layers have been cut.
  `Narrow.HalfwayExample` is an example, reached by a recorded pass. A refusal over a spilled block changes nothing exactly if no layer is recurrent
  and the first layer is one that refuses: `Rollback.InTime`, in the contract of `Rollback.Truncate`.
- `KVCacheState::truncate` says that a truncation always lands on resident positions. It is refused exactly if the cut
  falls inside a block on disk: `KvCache.KVCacheState.Truncate`. That never happens if attention reads back at least as
  far as the guesses go: `KvCache.KVCacheState.CutAfterReading`. With a narrower window it can: `KvCache.NarrowWindowRefuses`
  is an example, and `Narrow.CutShort` a request that is cut short by it. So speculation equals plain decoding
  unless the backend can spill and its window is narrower than the lookahead: `Runtime.DecodeSpeculating`.
- A timestamp has the four-digit year of RFC 3339 (section 5.6) exactly up to the end of the year 9999:
  `Civil.TextReads`. The first second without one is 253402300800: `Civil.FirstBadSecond`.

## Model

| member | source | states |
|---|---|---|
| `Backend.Argmax` | garuda/src/runtime/mod.rs:99-107 | At temperature 0 the pick is the first largest logit: nothing is larger, and nothing before it is as large. |
| `Backend.LogitsMulti` | garuda/src/core/mod.rs:276-308 | What decoding asks of a backend: it succeeds exactly for unseen tokens of the vocabulary that fit, and for more than one answer only if it speculates; answer `i` is that of stopping at that prefix; a failing pass has absorbed some unseen tokens in order and nothing else. What it leaves on disk lies outside the window, and what it recorded can be gone back to. |
| `Backend.Truncate` | garuda/src/cache/mod.rs:852-877 | A cut not before the recorded part and not before where blocks may be on disk succeeds; a cut that succeeds leaves the kept prefix. |
| `Backend.LogitsBatch` | garuda/src/core/mod.rs:316-347 | The batched contract of both kinds of backend: which sequences have moved when a batch fails. |
| `Runtime.DraftFromContext` | garuda/src/runtime/mod.rs:372-392 | A lookup guess is what followed the latest earlier occurrence of the last `ngram` tokens, and is empty exactly if there is none. |
| `Runtime.ProposeWithModel` | garuda/src/runtime/mod.rs:310-369 | However the drafter runs or fails, its cache stays comparable with the context, and guesses are in its vocabulary and no more than asked. |
| `Runtime.NextToken` | garuda/src/runtime/mod.rs:698-757 | One plain step on a session whose cache trails its context by one: what the budget, the window and the picked token make of it, the two tokens that end a reply included, and what a finished or stuck session answers. |
| `Runtime.StepIsNext` | garuda/src/runtime/mod.rs:698-757 | A greedy step has one outcome, said of the logits: `Length` exactly if the budget is spent, `ContextFull` exactly if the window is full or the last token is outside the vocabulary, `Eos` exactly if the first largest logit is the end-of-text token's or the turn-end token's, and otherwise that token. |
| `Runtime.RunIsReply` | garuda/src/runtime/mod.rs:698-757 | From every context there is exactly one greedy reply: each of its tokens is the next one after those before it, none of them ends a reply, and it stops where and why a step does. The reference run is that reply. |
| `Runtime.FollowsRun` | garuda/src/runtime/mod.rs:698-757 | Whatever may follow a context greedily, token by token, is a beginning of its run. |
| `Runtime.Verdict` | garuda/src/runtime/mod.rs:855-892 | For a greedy request a guess is kept exactly if it is the model's own answer, and what is emitted is that answer. |
| `Runtime.Walk` | garuda/src/runtime/mod.rs:854-907 | Walking the answers of a verified guess emits what plain steps would emit, up to the first disagreement or stop; sampled or not, each token may follow those before it, and the walk stops exactly on a token that ends a reply. |
| `Runtime.CutDraft` | garuda/src/runtime/mod.rs:926-935 | After a round the draft cache is cut to a prefix of the new context, or dropped. |
| `Runtime.Settle` | garuda/src/runtime/mod.rs:909-943 | After a round the target cache again describes the context minus its last token, unless a truncation is refused: exactly if the cut lands where blocks may be on disk and there is one, which finishes the session and takes a backend that spills and a window narrower than the guesses. |
| `Runtime.ProbeForward` | garuda/src/runtime/mod.rs:841-852 | The verification pass succeeds exactly when a plain step would. |
| `Runtime.Probe` | garuda/src/runtime/mod.rs:841-852 | The verification pass over context and guesses answers at every guess, leaves the guesses absorbed, nothing inside the window on disk, and a way back to before them. |
| `Runtime.Judge` | garuda/src/runtime/mod.rs:854-944 | From those answers on, the rest of the call emits plain decoding's tokens and stop, and restores both cache invariants, or is cut short, exactly if the cut lands in a block on disk. |
| `Runtime.FollowsOn` | garuda/src/runtime/mod.rs:762-944 | Tokens that may follow a context, and tokens that may follow those, join up across rounds. |
| `Runtime.NextTokensSpeculative` | garuda/src/runtime/mod.rs:762-944 | For any drafter, lookahead and `spec_gain` history, one call gives plain decoding's next tokens and stop, and restores both cache invariants; a sampled request's tokens may each follow those before, and it stops where a reply may stop; only on a backend that spills with a window narrower than the lookahead may a refused truncation end it early, after a prefix. |
| `Runtime.DecodePlain` | garuda/src/runtime/mod.rs:698-757 | Repeated `next_token` until it stops gives a whole reply; for a greedy request, the reference run. |
| `Runtime.DecodeSpeculating` | garuda/src/runtime/mod.rs:762-944 | Repeated speculative rounds, any lookahead up to `most` in each, give a whole reply too, and a greedy request the reference run's tokens and reason, unless the backend spills and its window is narrower than `most`: then a refused truncation may leave a prefix. |
| `Narrow.CutShort` | garuda/src/runtime/mod.rs:841-944 | A run that is cut short: one prompt token, two wrong guesses, a window of one. The pass over real layers is answered, its cut is refused, and the loop ends with `ContextFull` after one token where plain decoding emits four. |
| `Narrow.RealRound` | garuda/src/runtime/mod.rs:841-924 | The round behind it: the answers are the model's, and neither the layers nor the attention layer's cache on pages takes the cut. |
| `Runtime.InferenceRuntime.StartIncremental` | garuda/src/runtime/mod.rs:573-617 | Begins exactly for acceptable parameters with a budget and a prompt that is neither empty nor too long; the sequence has the next identity, and arrives absorbed exactly if the cache has its prefix, as a copy of the entry. |
| `Runtime.InferenceRuntime.AdvancePrefill` | garuda/src/runtime/mod.rs:622-648 | Absorbs exactly the next `max_tokens`, at least one, and fails exactly if one of them is outside the vocabulary; a prompt that arrived unabsorbed is cached when it is in, if nothing of it is on disk and it fits. |
| `Runtime.InferenceRuntime.FinishPrefill` | garuda/src/runtime/mod.rs:650-668 | An absorbed prompt becomes a session ready to decode on the same sequence, its cache one token behind. |
| `Runtime.InferenceRuntime.Start` | garuda/src/runtime/mod.rs:560-571 | However a prompt is cut into pieces, the session is the same; with a valid prompt it does not fail. |
| `Runtime.InferenceRuntime.FreshSeqId` | garuda/src/runtime/mod.rs:548-550 | Identities are never handed out twice. |
| `Batching.NextTokenBatch` | garuda/src/runtime/mod.rs:955-1056 | Every session of a batch, barred, live, failing or starved, ends as specified one by one, and nothing leaks between sessions. |
| `Batching.StarvedAhead` | garuda/src/runtime/mod.rs:1001-1025 | The sessions the default batch starves are exactly the live ones ahead of the first failure. |
| `Batching.BatchMatchesPlainIff` | garuda/src/runtime/mod.rs:955-1056 | A batched step equals every live session's plain step if and only if the batch fails at its first live session, or never, or the backend checks first. |
| `Batching.DefaultBatchStarves` | garuda/src/core/mod.rs:330-347 | Two one-token prompts, the second out of vocabulary: alone the first emits a token, batched it stops with `ContextFull`. |
| `Sampling.Walk` | garuda/src/runtime/mod.rs:117-124 | Subtracting weights one by one stops at the index whose stretch of the line holds the point. |
| `Sampling.HitIsShare` | garuda/src/runtime/mod.rs:117-124 | The draws that end at index `i` are one interval of length `w[i] / total`, and no draw ends at two indices. |
| `Sampling.Sample` | garuda/src/runtime/mod.rs:87-125 | The draw lands in the chosen candidate's stretch; with no weight at all the first candidate is taken. |
| `Sampling.VerifyAgainst` | garuda/src/runtime/mod.rs:199-273 | A guess is kept exactly below its acceptance probability or when nothing is left over; otherwise the token is drawn from the leftovers. |
| `Sampling.ModelResidual` | garuda/src/runtime/mod.rs:235-252 | The leftovers weigh the target's total times one minus the overlap of target and drafter. |
| `Sampling.KeepIsCommon` | garuda/src/runtime/mod.rs:219-233 | A guess's chance times its chance to be kept is what both distributions agree on there. |
| `Sampling.FullAgreement` | garuda/src/runtime/mod.rs:252-256 | If nothing is left over, drafter and target are the same distribution. |
| `Sampling.LookupExact` | garuda/src/runtime/mod.rs:199-273 | With a guess made for certain, every token comes out with its own probability. |
| `Sampling.ModelExact` | garuda/src/runtime/mod.rs:199-273 | With a guess drawn from `q`, every token comes out with its own probability. |
| `Sampling.StringsExact` | garuda/src/runtime/mod.rs:855-907 | Over any sequence of rounds, model guesses, lookups or none, every finite token string has the probability plain sampling gives it. |
| `Ledger.PermitTaken` | garuda/src/scheduler/mod.rs:258-283 | Taking a permit keeps permits equal to the user's live requests. |
| `Ledger.PermitReturned` | garuda/src/scheduler/mod.rs:428-462 | Returning one does too. |
| `Ledger.TableEviction` | garuda/src/scheduler/mod.rs:240-252 | Dropping idle users from a full table forgets no permit that is out, and drops exactly those with none out. |
| `Ledger.TallyOne` | garuda/src/scheduler/mod.rs:602-691 | Each counter counts exactly the requests that ended for its cause. |
| `Ledger.StreamAdvances` | garuda/src/scheduler/mod.rs:644-654 | Sending what a step produced keeps every token of a client's log one that may follow those before it. |
| `Ledger.StreamPartly` | garuda/src/scheduler/mod.rs:647-664 | Stopping part of the way because the client left does too. |
| `Ledger.DoneEnds` | garuda/src/scheduler/mod.rs:655-661 | `Done` ends a log that is a whole reply, with its reason. |
| `Ledger.DoneAnswers` | garuda/src/scheduler/mod.rs:655-661 | A log that ends with `Done` is a whole reply to its prompt and the reason, and for a greedy request the reference run, unless the request was cut short. |
| `Ledger.GreedyLog` | garuda/src/scheduler/mod.rs:638-664 | At any moment a greedy client's tokens are a beginning of the reference run. |
| `Ledger.ErrorEnds` | garuda/src/scheduler/mod.rs:606-633 | An error ends any log, and nothing follows it. |
| `Desks.AdmitKeeps` | garuda/src/scheduler/mod.rs:450-462 | Moving the top of the heap to the batch keeps counters, permits, places and logs consistent. |
| `Desks.SettleRunningKeeps` | garuda/src/scheduler/mod.rs:655-664 | Settling a running request counts it once and frees its permit; its log is tokens, or tokens and the event for its cause. |
| `Desks.BookSettles` | garuda/src/scheduler/mod.rs:602-691 | A request that ends leaves the held ones for good: every accepted request is held or has ended, and not both, and those that have not ended have been sent tokens alone. |
| `Desks.Apart` | garuda/src/scheduler/mod.rs:373-398 | Two requests held in different places are different requests. |
| `Scheduling.Scheduler.Submit` | garuda/src/scheduler/mod.rs:258-303 | Any request: accepted exactly if the user is below the limit and the queue has room, and then queued with a fresh id; otherwise counted as the refusal it is, with nothing held or sent changed. |
| `Scheduling.Scheduler.Drain` | garuda/src/scheduler/mod.rs:414-426 | Everything submitted reaches the heap, and nothing is lost or doubled. |
| `Scheduling.Scheduler.PurgeHeap` | garuda/src/scheduler/mod.rs:428-448 | Queued requests that leave have been cancelled or hung up on, none that stays had been when the sweep began, and exactly those that leave are counted; no event is sent. |
| `Scheduling.Scheduler.Admit` | garuda/src/scheduler/mod.rs:450-462 | Admission takes the highest priority, the oldest of equal priority, out of those queued, and stops only at the limit or an empty heap. |
| `Scheduling.Scheduler.AdmitOne` | garuda/src/scheduler/mod.rs:510-535 | A request starts prefilling exactly if its parameters are valid and its prompt neither empty nor too long; otherwise it is counted as failed and gets one error, if its client is there. |
| `Scheduling.Scheduler.AdmitAll` | garuda/src/scheduler/mod.rs:510-535 | Of those admitted exactly the ones that can start join the ones that prefill, in order. |
| `Scheduling.Scheduler.AdvanceOne` | garuda/src/scheduler/mod.rs:538-594 | A prefilling request's turn, with its whole effect on the account: dropped exactly if its client had left when it was looked at, it is late or the next piece of its prompt cannot be absorbed, with the cause and the error that go with it; promoted exactly if the piece was the last; kept at the back of the line otherwise. |
| `Scheduling.Scheduler.AdvancePrefills` | garuda/src/scheduler/mod.rs:538-594 | Everyone gets one such turn, in order, and the account afterwards is that of those turns. |
| `Desks.TurnsSort` | garuda/src/scheduler/mod.rs:538-594 | After a turn each, those who stayed wait in their old order, and those who rose decode in theirs behind the rest. |
| `Desks.StepsReach` | garuda/src/scheduler/mod.rs:638-695 | After a step each, every running request's log is what its own step made of it: the step's tokens up to the hang-up, and the end if it stopped and its client is there; and it has ended exactly as the step says. |
| `Desks.NextToStep` | garuda/src/scheduler/mod.rs:674-695 | Steps are taken in line, and nobody else's step sends a client anything. |
| `Scheduling.Scheduler.CheckOne` | garuda/src/scheduler/mod.rs:604-633 | Between tokens a request is settled exactly if its client had left when it was looked at or it is late, with the cause that says which, and gets one error if its client is there; otherwise nothing changes but its place in the round. |
| `Scheduling.Scheduler.CheckAll` | garuda/src/scheduler/mod.rs:604-633 | Every running request is looked at once, in order, and the account afterwards is that of those looks. |
| `Scheduling.Scheduler.SendRun` | garuda/src/scheduler/mod.rs:647-654 | A run of tokens is sent one by one, all of it or until the client is found gone. |
| `Scheduling.Scheduler.StepSolo` | garuda/src/scheduler/mod.rs:638-666 | A lone request is stepped speculatively, with its whole effect on the account: its client gets the tokens decoding gives, up to a hang-up, which counts as cancelled; if decoding stops, it is completed and its client, if it is there, gets exactly `Done` with the reason; otherwise it goes on. |
| `Scheduling.Scheduler.LeaveSolo` | garuda/src/scheduler/mod.rs:647-664 | The end of that: `Done` is sent and completion counted exactly if all tokens reached the client. |
| `Scheduling.WhoStarves` | garuda/src/scheduler/mod.rs:668-672 | A shared step can starve a request only if a running prompt ends outside the vocabulary on a backend that does not check a batch first. |
| `Scheduling.Scheduler.DeliverOne` | garuda/src/scheduler/mod.rs:674-691 | One result of a batched step, with its whole effect on the account: a token goes to its own client or cancels the request whose client is gone, and a stop completes it with `Done` and the reason, if its client is there. |
| `Scheduling.Scheduler.StepMany` | garuda/src/scheduler/mod.rs:668-695 | A shared step does that for every running request, in order, each result being what decoding gives it; one that is starved is told `ContextFull` and is put down as cut short. |
| `Scheduling.Scheduler.StepBatch` | garuda/src/scheduler/mod.rs:596-696 | Everyone is looked at, and each of those left has its step, one way or the other: the account afterwards is that of those looks and steps. |
| `Scheduling.Scheduler.Intake` | garuda/src/scheduler/mod.rs:414-477 | Everything submitted is queued, no request waits whose client had left before, the best of the queue fill the free places in order, and those of them that can start prefill behind those that do. |
| `Scheduling.Scheduler.Iterate` | garuda/src/scheduler/mod.rs:414-507 | One turn of the loop is exactly that: an intake, a turn for every prefilling request, a look at every running one and a step for each of those left. Every invariant is kept, and `Heard` holds of every request. |
| `Scheduling.Scheduler.Serve` | garuda/src/scheduler/mod.rs:400-508 | So it does after any run of arrivals, of any requests, and turns, with clients cancelling and hanging up at will: whoever stayed has the whole reply and its reason if its request was completed, the error if it failed or ran out of time, and tokens alone if it goes on. |
| `Scheduling.Scheduler.AllHear` | garuda/src/scheduler/mod.rs:602-691 | That at any moment of any run; and only a request whose client cancelled or left counts as cancelled. |
| `Scheduling.Scheduler.Promises` | garuda/src/scheduler/mod.rs:178-303 | What the invariant means: submitted = completed + cancelled + timed out + failed + held; each counter counts the requests that ended for its cause, and every accepted request is held or has ended, and not both; permits equal live requests and stay within the limit; never more than `max_concurrent` in the batch; every client's tokens follow its prompt and `Done` comes where decoding stops, with its reason. A request cut short hears `ContextFull` early, and there is one only if the window is narrower than the lookahead on a backend that spills, or an accepted prompt ended outside the vocabulary on a backend that does not check first. |
| `PromptCaches.PromptCache.Get` | garuda/src/cache/mod.rs:950-969 | A hit is a copy under the fresh identity and becomes the most recent; a miss changes nothing. |
| `PromptCaches.PromptCache.Insert` | garuda/src/cache/mod.rs:976-1008 | The new entry survives its insertion; the least recent are evicted until both bounds hold, and no further; the byte count is the sum of the entries. |
| `PromptCaches.PromptCache.EvictToFit` | garuda/src/cache/mod.rs:999-1007 | Eviction stops at the first point where both bounds hold. |
| `PromptCaches.TotalWithout` | garuda/src/cache/mod.rs:991-996 | Removing a key takes off exactly its bytes. |
| `Pages.BlockRoundTrip` | garuda/src/cache/mod.rs:404-464 | A block decoded from its spill file is the block. |
| `Pages.AppendStands` | garuda/src/cache/mod.rs:364-374 | Appending to the pages is appending to the list. |
| `Pages.SpillStands` | garuda/src/cache/mod.rs:395-419 | Spilling a complete block leaves the list as it was. |
| `Pages.ReloadStands` | garuda/src/cache/mod.rs:424-468 | A spilled block's file is there, decodes, and reloading it leaves the list as it was. |
| `Pages.ReadRow` | garuda/src/cache/mod.rs:495-505 | A row of a resident page is the list's element. |
| `Pages.CutStands` | garuda/src/cache/mod.rs:516-557 | Cutting the pages is cutting the list. |
| `Pages.ForeignFiles` | garuda/src/cache/mod.rs:340-346 | Changes to files under other names leave a cache standing. |
| `KvCache.KVCacheState.Append` | garuda/src/cache/mod.rs:348-378 | The pair is appended, also when the spill after it fails; a wrong width or a full cache changes nothing; on success the residency bound holds, and it succeeds unless the disk fails. |
| `KvCache.KVCacheState.EnforceResidency` | garuda/src/cache/mod.rs:383-421 | Oldest blocks but the current go to disk until the bound holds; the list stays. It fails exactly if the disk does, and touches nothing without storage, without vectors or within the bound. |
| `KvCache.KVCacheState.SpillOne` | garuda/src/cache/mod.rs:396-419 | One block moves to disk, or nothing does. |
| `KvCache.KVCacheState.Reload` | garuda/src/cache/mod.rs:424-468 | Succeeds for a spilled block, which becomes resident, unless the disk fails, and for no other; the file stays. |
| `KvCache.KVCacheState.EnsureResident` | garuda/src/cache/mod.rs:471-483 | On success every position of the range is in memory, and none is on disk. It fails exactly if the disk does. |
| `KvCache.KVCacheState.KeyAt` | garuda/src/cache/mod.rs:487-505 | A read from memory is the list's element; past the end there is none. |
| `KvCache.KVCacheState.ValueAt` | garuda/src/cache/mod.rs:491-505 | The same for values. |
| `KvCache.KVCacheState.Truncate` | garuda/src/cache/mod.rs:516-557 | Refused exactly if the cut would land inside a spilled block, and then nothing changes; otherwise the list is cut. |
| `KvCache.KVCacheState.CutAfterReading` | garuda/src/cache/mod.rs:471-557 | Once attention has read its window back, a cut at or past the window's start is never refused. |
| `KvCache.NarrowWindowRefuses` | garuda/src/cache/mod.rs:516-527 | Three positions in blocks of two, one block in memory, a window of one: unless the disk fails, the cut to one position is refused. |
| `Paging.AttendOne` | garuda/src/llama/mod.rs:766-828 | One token through an attention layer on pages: it goes through unless the disk fails, and then the entries, the answer and the blocks left on disk are what the forward pass has or allows. |
| `Paging.CutOne` | garuda/src/cache/mod.rs:516-557 | A cut on pages is refused exactly where the cut of a layer is, and otherwise leaves that layer's entries. |
| `KvCache.KVCacheState.RemoveStale` | garuda/src/cache/mod.rs:532-544 | Only files of blocks past the cut are deleted. |
| `KvCache.KVCacheState.Rekey` | garuda/src/cache/mod.rs:578-586 | A new identity exactly if no file carries the old one. |
| `SpillFiles.StepSafe` | garuda/src/cache/mod.rs:578-596 | No step of one sequence, copying, renaming, working, evicting or dropping, touches a file another live sequence's pages are in. |
| `SpillFiles.RunSafe` | garuda/src/cache/mod.rs:880-886 | Nor does any step of any run. |
| `SpillFiles.SharedSpillHarms` | garuda/src/cache/mod.rs:971-979 | Why the prompt cache refuses states with spilled blocks: evicting one would be allowed to delete a live sequence's pages. |
| `Experts.Matmul` | garuda/src/quant/mod.rs:223-304 | Vector `b` of the batched product is `matvec` of vector `b`. |
| `Experts.Matvec` | garuda/src/quant/mod.rs:158-221 | One dot product per row. |
| `Experts.Flip` | garuda/src/simd/mod.rs:96-130 | Row-major products become vector-major ones. |
| `Experts.ExpertBatch` | garuda/src/llama/mod.rs:1000-1020 | An expert's answers for a batch are its answers one by one. |
| `Experts.GatedAt` | garuda/src/llama/mod.rs:1012-1019 | The gate is bent and multiplied with the other half number by number. |
| `Experts.Invert` | garuda/src/llama/mod.rs:966-972 | Inverting the routing lists, per expert, exactly the tokens and weights that chose it. |
| `Experts.ServeExpert` | garuda/src/llama/mod.rs:974-996 | Gathering, answering together and scattering adds one expert's share to each of its tokens and to no other. |
| `Experts.AddScaledAt` | garuda/src/llama/mod.rs:988-996 | A share is added with its weight number by number. |
| `Experts.NobodyChosen` | garuda/src/llama/mod.rs:903-998 | A token for which no expert is chosen gets nothing. |
| `Experts.FeedForwardBatch` | garuda/src/llama/mod.rs:903-998 | For every batch and routing, token `t` gets exactly what a batch of one gives it. |
| `Forward.LayerMajorIsTokenMajor` | garuda/src/llama/mod.rs:851-893 | All tokens through one layer at a time leave the states and give the hidden states of one token through all layers at a time. |
| `Forward.ContinueFrom` | garuda/src/llama/mod.rs:1027-1116 | A context consumed over several calls is the context consumed at once. |
| `Forward.LayerInside` | garuda/src/qwen35/mod.rs:861-984 | Inside a chunk, a layer has after `j` tokens the state token-by-token processing has there. |
| `Forward.Causal` | garuda/src/llama/mod.rs:766-828 | Later tokens do not reach back. |
| `Forward.ResidualAt` | garuda/src/llama/mod.rs:875-892 | What leaves a layer is what entered it, plus what the mixer made of it, plus the feed-forward of their normalised sum, number by number. |
| `Hybrid.ChunkKeeps` | garuda/src/qwen35/mod.rs:861-984 | A chunk leaves a layer describing the longer context, keeps its copies, and if it records has one from before each of its tokens. |
| `Hybrid.CopyTrue` | garuda/src/cache/mod.rs:650-681 | The copy taken at a position is the memory after the tokens before it. |
| `Hybrid.AlwaysMemory` | garuda/src/cache/mod.rs:719-744 | Exactly the recurrent layers carry memory. |
| `Hybrid.ItemsPrefix` | garuda/src/qwen35/mod.rs:749-860 | Entries after `len` tokens are the first `len` of those after all of them. |
| `Passes.SeqState.MixOne` | garuda/src/qwen35/mod.rs:861-984 | One token in one layer: copy if recording, fold, answer; or append and read the window back. |
| `Passes.MixShared` | garuda/src/qwen35/mod.rs:749-984 | One sequence's tokens meet the mixer in order. |
| `Passes.MixEach` | garuda/src/qwen35/mod.rs:390-402 | Tokens of several sequences each meet their own state. |
| `Passes.RunLayer` | garuda/src/qwen35/mod.rs:663-694 | Norms, projections and feed-forward over the whole batch with the mixer in between equal the layer token by token. |
| `Passes.ForwardChunk` | garuda/src/qwen35/mod.rs:994-1061 | A chunk gives the hidden state of each of its prefixes and leaves every layer describing the longer context. |
| `Passes.ChunkEnds` | garuda/src/qwen35/mod.rs:994-1061 | What the last layer hands on is what token-by-token processing computes. |
| `Rounds.ForwardTail` | garuda/src/qwen35/mod.rs:994-1061 | For any chunk size and any earlier calls, exactly when it succeeds, and that the last `n` hidden states and the state are token by token's. |
| `Rounds.Consume` | garuda/src/llama/mod.rs:1069-1115 | The rolling window over chunks keeps the last `n`; a bad token leaves a consumed prefix, copies from before survive, and afterwards each layer's window is off the disk. |
| `Rounds.Logits` | garuda/src/qwen35/mod.rs:1075-1088 | Exactly when it succeeds, that the answer is that of the whole context, and that a failing pass has absorbed a prefix of the unseen tokens, none if only the last was unseen. |
| `Rounds.LogitsMulti` | garuda/src/qwen35/mod.rs:1170-1192 | Exactly when it succeeds; answer `k` is what stopping at that prefix gives; more than one answer records the round, failing or not; recording is off again afterwards, and a failing pass has absorbed a prefix of the unseen tokens. |
| `Rounds.RecordedRound` | garuda/src/qwen35/mod.rs:1179-1181 | A recorded round, also one that fails, holds a copy from every position it has absorbed. |
| `Rollback.RewindTo` | garuda/src/cache/mod.rs:683-697 | Rewinds exactly if the memory is there or a copy is; otherwise nothing changes. |
| `Rollback.RoundIsRecoverable` | garuda/src/cache/mod.rs:758-772 | Every position of a recorded round, its end included, can be gone back to. |
| `Rollback.CutCell` | garuda/src/cache/mod.rs:852-877 | A layer put back describes the kept tokens. |
| `Rollback.TruncateLayers` | garuda/src/cache/mod.rs:866-876 | Cuts layer by layer up to the first refusal, which happens exactly if a spilled block would be cut. |
| `Rollback.TruncateCells` | garuda/src/cache/mod.rs:852-877 | For any layers, a model's or not: exactly when a cut succeeds, exactly when it is refused for want of a copy, and exactly when a refusal over a spilled block changes nothing. |
| `Rollback.Truncate` | garuda/src/cache/mod.rs:852-877 | Exactly when it succeeds, and then every layer is as if only the kept tokens had been consumed; for want of a copy nothing changes; over a spilled block nothing changes if and only if no layer is recurrent and the first layer refuses. |
| `Rollback.RefusedInTime` | garuda/src/cache/mod.rs:852-877 | Rewinding every memory and cutting the layers before the refusing one leaves the state as it was if and only if there was no memory to rewind and no layer to cut. |
| `Narrow.HalfwayExample` | garuda/src/cache/mod.rs:852-877 | A recurrent and an attention layer after a recorded pass over three tokens, with the block on disk that the paged cache puts there: the cut to one is refused, with the memory at one and a layer still at three. |
| `Together.StepTogether` | garuda/src/qwen35/mod.rs:1134-1158 | One pass over several sequences gives each its own answer and state. |
| `Together.LogitsBatch` | garuda/src/qwen35/mod.rs:1092-1159 | Equals `logits` per sequence; with one new token each, a bad token or a full sequence is found before any state moves; otherwise the first that fails stops the rest, those ahead have moved and those behind have not. |
| `Together.InTurn` | garuda/src/llama/mod.rs:1134-1202 | The fallback runs them in turn: it succeeds exactly if every turn would, and a failure leaves those ahead stepped, the failing one with a prefix, and those behind untouched. |
| `Contracts.LogitsMulti` | garuda/src/qwen35/mod.rs:1170-1192 | The pass over real layers meets the contract the decode loop asks of `logits_multi`: when it succeeds, its answers, the tokens absorbed, how far back there is a way and what may be on disk. |
| `Contracts.Truncate` | garuda/src/cache/mod.rs:852-877 | `truncate` of real layers meets the contract the decode loop asks of it. |
| `Contracts.LogitsBatch` | garuda/src/qwen35/mod.rs:1092-1159 | The shared pass over real layers meets the contract the scheduler asks of a backend that checks a batch first. |
| `Contracts.NoCutRefused` | garuda/src/cache/mod.rs:516-527 | No cut at or past where blocks may be on disk is refused, in any layer. |
| `Contracts.WindowsCold` | garuda/src/qwen35/mod.rs:816-820 | After a pass that read each layer's window back, nothing inside the window is on disk. |
| `Contracts.RoundAndBack` | garuda/src/runtime/mod.rs:841-924 | A recorded round of guesses and then a cut to any length from the round's start to its end: the cut succeeds unless it lies behind the window of a cache that spills, and the state is that of the kept tokens. |
| `Contracts.NewSequence` | garuda/src/cache/mod.rs:700-710 | A new sequence shows the decode loop nothing absorbed. |
| `Formats.BitIsShift` | garuda/src/quant/mod.rs:454-546 | Testing a shifted mask is testing the bit. |
| `Formats.ScaleMinRoundTrip` | garuda/src/quant/mod.rs:656-669 | Unpacking undoes packing eight scales and minima into twelve bytes. |
| `Formats.UnpackQ3Is` | garuda/src/quant/mod.rs:812-838 | The word juggling gathers each scale's six bits, for every bit pattern. |
| `Formats.JoinRoundTrip` | garuda/src/quant/mod.rs:812-838 | Four bytes to a word and back. |
| `Quants.RunSum` | garuda/src/quant/mod.rs:398-621 | Scale, minimum and activation scale factor out of a sub-block's sum of products. |
| `Quants.WeightIs` | garuda/src/quant/mod.rs:624-875 | Sub-block by sub-block or number by number it is the same dequantised weight. |
| `Kernels.DotScalar` | garuda/src/simd/mod.rs:34-39 | The scalar integer dot product. |
| `Kernels.DotVector` | garuda/src/simd/mod.rs:41-65 | Sixteen at a time in four lanes plus the ragged tail is the same sum. |
| `Kernels.LanesWithin` | garuda/src/simd/mod.rs:41-65 | Eight products at a time, a step adds at most 2^15 to each of the four lanes, so after `k` steps none is past `k` times that. |
| `Kernels.NothingWraps` | garuda/src/simd/mod.rs:23-65 | Products of int8 values fit sixteen bits and bound the sum. |
| `Kernels.StepAffine` | garuda/src/quant/mod.rs:454-501 | One sub-block with a minimum, through the precomputed activation sum, adds exactly its products. |
| `Kernels.StepSymmetric` | garuda/src/quant/mod.rs:398-452 | One sub-block without a minimum does. |
| `Dots.Q8Dot` | garuda/src/quant/mod.rs:398-415 | The Q8_0 kernel is the sum of dequantised weight times scaled activation, for every bit pattern and row length. |
| `Dots.Q6Dot` | garuda/src/quant/mod.rs:417-452 | The same for Q6_K. |
| `Dots.Q5Dot` | garuda/src/quant/mod.rs:454-501 | The same for Q5_K. |
| `Dots.Q3Dot` | garuda/src/quant/mod.rs:503-546 | The same for Q3_K. |
| `Dots.Q2Dot` | garuda/src/quant/mod.rs:548-584 | The same for Q2_K. |
| `Dots.Q4Dot` | garuda/src/quant/mod.rs:586-621 | The same for Q4_K. |
| `Dots.Int8Dot` | garuda/src/quant/mod.rs:384-396 | Whatever the format, the kernel equals dequantise-then-dot. What the scales are worth is `Numbers.HalfIs`. |
| `Decoders.DecodeBlock8` | garuda/src/quant/mod.rs:624-635 | The Q8_0 decoder writes the reference weights. |
| `Decoders.DecodeBlock4` | garuda/src/quant/mod.rs:671-702 | The Q4_K decoder does. |
| `Decoders.DecodeBlock6` | garuda/src/quant/mod.rs:704-735 | The Q6_K decoder does. |
| `Decoders.DecodeBlock5` | garuda/src/quant/mod.rs:737-773 | The Q5_K decoder does. |
| `Decoders.DecodeBlock2` | garuda/src/quant/mod.rs:775-810 | The Q2_K decoder does. |
| `Decoders.DecodeBlock3` | garuda/src/quant/mod.rs:840-875 | The Q3_K decoder does. |
| `Decoders.Dequantise` | garuda/src/quant/mod.rs:119-156 | A whole row of any of the six formats with an integer kernel decodes to the weights the kernels use. What the scales are worth is `Numbers.HalfIs`. |
| `Plain.DecodeNibbles` | garuda/src/quant/mod.rs:641-654 | The Q4_0 decoder: number `i` of a block is scale times its nibble less eight, the low nibbles before the high ones. |
| `Plain.DequantInto` | garuda/src/quant/mod.rs:89-156 | For all nine formats: exactly when a row is refused and why, and that otherwise each number is what its block says, F32 and F16 bit by bit included. |
| `Numbers.OneReading` | garuda/src/quant/mod.rs:878-890 | The rules of a binary floating-point format leave one value for each pattern: equal steps between powers of two, a step that doubles from one power to the next, subnormals in the steps that follow them, and one at its pattern. |
| `Numbers.Rises` | garuda/src/quant/mod.rs:878-890 | Under them larger patterns are larger numbers. |
| `Numbers.HalfReads` | garuda/src/quant/mod.rs:878-890 | Half precision keeps the rules: 1024 fractions to a power, one at 0x3C00, finite below 0x7C00. |
| `Numbers.HalfIs` | garuda/src/quant/mod.rs:878-890 | So whatever keeps them gives the value of every pair of bytes, its top bit negating it. |
| `Numbers.FloatReads` | garuda/src/quant/mod.rs:130-133 | Single precision keeps them: 2^23 fractions to a power, one at 0x3F80_0000, finite below 0x7F80_0000. |
| `Numbers.FloatIs` | garuda/src/quant/mod.rs:130-133 | And whatever keeps them gives the value of every four bytes. |
| `Numbers.NibblesRoundTrip` | garuda/src/quant/mod.rs:599-603 | Reading the low and the high half of a byte undoes packing two four-bit numbers. |
| `Numbers.PairsRoundTrip` | garuda/src/quant/mod.rs:563-569 | Reading two bits at each place undoes packing four pairs. |
| `Numbers.CentredRoundTrip` | garuda/src/quant/mod.rs:428-434 | A number from -32 to 31 is read back from its four bits and its two. |
| `Numbers.TimesIs` | garuda/src/quant/mod.rs:599-616 | A scale times a small factor is their product. |
| `Numbers.SignedRoundTrip` | garuda/src/quant/mod.rs:624-632 | A byte read as signed is two's complement. |
| `Activations.QuantiseOne` | garuda/src/quant/mod.rs:331-345 | A number is off by at most half a step, and its quant is within -127 to 127. |
| `Activations.Quantise` | garuda/src/quant/mod.rs:331-345 | So is every number of every block of 32. |
| `Activations.BlockSums` | garuda/src/quant/mod.rs:322-329 | The precomputed sums are those of the runs. |
| `Activations.WithinSlack` | garuda/src/quant/mod.rs:351-366 | The kernel is within the sum of absolute weight times largest activation over 254 of the exact product. |
| `Activations.RowProduct` | garuda/src/quant/mod.rs:351-361 | So is quantising an activation and running any of the kernels on it. |
| `Activations.KernelsFit` | garuda/src/quant/mod.rs:398-621 | On such activations no quant leaves int8, no product sixteen bits, and no prefix of a sum, no lane of the vector kernel at any step and no sum of the lanes leaves thirty-two. |
| `Spm.BestIsUnique` | garuda/src/tokenizer/spm.rs:342-349 | Highest score, leftmost: the reference's choice is unique. |
| `Spm.GreedyResult` | garuda/src/tokenizer/spm.rs:205-225 | The reference loses no byte and stops only when no adjacent pair is in the vocabulary. |
| `Spm.FreshMeansAdjacent` | garuda/src/tokenizer/spm.rs:205-212 | An entry passes the stale check only if its symbols are live, adjacent and unchanged. |
| `Spm.CandidateIsFresh` | garuda/src/tokenizer/spm.rs:205-212 | And every such entry passes it. |
| `Spm.EntrySurvives` | garuda/src/tokenizer/spm.rs:214-220 | Merging keeps queued entries sound. |
| `Spm.CandidateSurvives` | garuda/src/tokenizer/spm.rs:214-224 | Every mergeable pair that does not touch the merged symbol keeps its entry. |
| `Spm.StaleDropped` | garuda/src/tokenizer/spm.rs:207-212 | Dropping a stale entry costs no live pair its entry. |
| `Spm.OfferPair` | garuda/src/tokenizer/spm.rs:246-270 | Offering an adjacent live pair adds the one entry that pair needs, sound in every field, if the vocabulary lists the merged text, and nothing otherwise. |
| `Spm.TopIsBest` | garuda/src/tokenizer/spm.rs:342-349 | A fresh entry on top of the heap is the reference's choice. |
| `Spm.EmptyQueueMeansDone` | garuda/src/tokenizer/spm.rs:205-225 | An empty heap means the reference has stopped. |
| `Spm.MergeIsGreedy` | garuda/src/tokenizer/spm.rs:205-225 | One merge of the linked list is one step of the reference. |
| `Spm.MergeAll` | garuda/src/tokenizer/spm.rs:205-225 | The merge loop ends, on the reference's segmentation. |
| `Spm.Output` | garuda/src/tokenizer/spm.rs:227-243 | Walking the list gives the tokens of its segments, one after another, behind the head; if every byte has a token they spell the segments' bytes. |
| `Spm.EncodeSpm` | garuda/src/tokenizer/spm.rs:172-244 | For every text and vocabulary the tokens are the reference's: the begin-of-sequence exactly if it is asked for, and then a tokenisation of the marked text whose segments no listed pair is left in, and which spells every byte if every byte has a token. |
| `Spm.NormalizeMarks` | garuda/src/tokenizer/spm.rs:173-183 | The text to be segmented is the given one with a mark in front exactly if it begins the prompt, a mark for every space, and every other character and the order kept. |
| `Spm.EmitAllSays` | garuda/src/tokenizer/spm.rs:226-242 | A listed segment gives its id, and any other one token for each byte, the byte's own or, where it has none, the unknown one. |
| `Spm.EmitAllSpells` | garuda/src/tokenizer/spm.rs:226-242 | If every byte has a token, the tokens spell the segments' bytes, a listed id standing for its text and a byte token for its byte. |
| `Pattern.ManyIsDown` | garuda/src/tokenizer/bpe.rs:25-36 | A greedy run gives its characters back one at a time. |
| `Pattern.OrIs` | garuda/src/tokenizer/bpe.rs:25-36 | The first alternative that matches decides. |
| `Pattern.KindsAre` | garuda/src/tokenizer/bpe.rs:78-227 | Which characters each set of the pattern holds: an ASCII letter in either case, and for the rest how they divide the alphabet. |
| `Split.ContractionIs` | garuda/src/tokenizer/bpe.rs:127-141 | The contraction branch is the pattern's first alternative. |
| `Split.WordIs` | garuda/src/tokenizer/bpe.rs:143-163 | The word branch, with its optional leading character. |
| `Split.SymbolIs` | garuda/src/tokenizer/bpe.rs:172-198 | The symbol branch and its trailing line breaks. |
| `Split.BreakIs` | garuda/src/tokenizer/bpe.rs:200-214 | White space up to its last line break. |
| `Split.TrailIs` | garuda/src/tokenizer/bpe.rs:216-224 | White space before more text gives one character back. |
| `Split.PieceIsMatch` | garuda/src/tokenizer/bpe.rs:116-227 | At every position the hand-run piece is what the backtracking engine matches first. |
| `Split.MatchAllTiles` | garuda/src/tokenizer/bpe.rs:116-227 | The matches are not empty, touch, and cover the text. |
| `Split.SplitBytes` | garuda/src/tokenizer/bpe.rs:116-227 | For every string and character classes, the byte ranges `split` returns touch and cover the encoded text, and range `p` holds exactly the encoding of the engine's match `p`. |
| `Utf8.EncodeDecode` | garuda/src/tokenizer/bpe.rs:439-448 | Any string survives UTF-8 encoding, whatever follows it (sections 3 and 4 of RFC 3629). |
| `Utf8.DecodeEncode` | garuda/src/gguf/mod.rs:152-167 | Well-formed bytes are the encoding of the string they decode to. |
| `Utf8.WellFormedPrefix` | garuda/src/tokenizer/bpe.rs:472-496 | Lossy decoding splits at the end of any well-formed prefix. |
| `Utf8.ValidPrefixIsWellFormed` | garuda/src/tokenizer/bpe.rs:472-490 | What `valid_up_to` measures is well formed. |
| `Utf8.ValidIsLongest` | garuda/src/tokenizer/bpe.rs:472-490 | And nothing longer is. |
| `Utf8.BadIsMaximal` | garuda/src/tokenizer/bpe.rs:439-448 | Where no character begins, what is replaced is as much as could have begun one, or else one byte. |
| `Utf8.LossyDecodes` | garuda/src/tokenizer/bpe.rs:439-448 | On any bytes lossy decoding gives the characters that are encoded there and one U+FFFD for each such part. |
| `Utf8.DecodesOnce` | garuda/src/tokenizer/bpe.rs:439-448 | That leaves one string. |
| `Bpe.ByteToChar` | garuda/src/tokenizer/bpe.rs:61-76 | The table is the byte alphabet. |
| `Bpe.CharOfIsInjective` | garuda/src/tokenizer/bpe.rs:61-76 | No two bytes share a character. |
| `Bpe.CharOfIs` | garuda/src/tokenizer/bpe.rs:61-76 | Range by range: the visible Latin-1 characters stand for themselves, and the others are U+0100 to U+0143 in order. |
| `Bpe.ReadMerges` | garuda/src/tokenizer/bpe.rs:298-313 | The merge map of the file's list: entries that are no text or have no space are skipped, each pair has the rank of its last entry, and nothing else is listed. |
| `Bpe.Load` | garuda/src/tokenizer/bpe.rs:269-372 | Accepts exactly a vocabulary with tokens, a merge in its list and an ordinary entry for every byte, and says which is missing first; the lookup then lists exactly the texts of ordinary entries, each leading to the first entry that has it. |
| `Bpe.TypesAre` | garuda/src/tokenizer/bpe.rs:317-336 | Types 3 and 5 have no text; those and type 4 are never reached from ordinary text. |
| `Bpe.OwnText` | garuda/src/tokenizer/bpe.rs:239-255 | A token whose text has no stand-ins is its own UTF-8. |
| `Bpe.MergesJoin` | garuda/src/tokenizer/bpe.rs:384-399 | Merging changes no text and stops only when no pair is listed. |
| `Bpe.Best` | garuda/src/tokenizer/bpe.rs:384-399 | The scan finds the lowest rank, leftmost of equals, or that there is none. |
| `Bpe.Merge` | garuda/src/tokenizer/bpe.rs:384-399 | The loop ends, having merged a best pair each time until none was left. |
| `Bpe.MergesOnce` | garuda/src/tokenizer/bpe.rs:384-399 | Merging comes to one end only. |
| `Bpe.Tokenize` | garuda/src/tokenizer/bpe.rs:407-429 | The ids are, match by match of the engine on the text, those of the symbols that merging the match's bytes ends in: a listed symbol's own id, otherwise one for each character. Their bytes are the text's bytes, and every id is in range. |
| `Bpe.PiecesSayOnce` | garuda/src/tokenizer/bpe.rs:407-429 | There is one such tokenisation. |
| `Bpe.Decode` | garuda/src/tokenizer/bpe.rs:439-448 | Fails exactly on an id out of range; otherwise the lossy text of all the bytes. |
| `Bpe.RoundTrip` | garuda/src/tokenizer/bpe.rs:402-448 | For every accepted vocabulary and every string, `decode(encode(s)) == s`. |
| `Bpe.BpeStreamDecoder.Push` | garuda/src/tokenizer/bpe.rs:472-490 | Says the longest well-formed prefix; everything said so far decodes what has been pushed but the tail. |
| `Bpe.BpeStreamDecoder.Finish` | garuda/src/tokenizer/bpe.rs:491-496 | Says the tail, and the whole is the lossy text of all bytes. |
| `Bpe.StreamIsBatch` | garuda/src/tokenizer/bpe.rs:472-496 | For every in-range token sequence, malformed UTF-8 included, streaming says what batch decoding says. |
| `Streams.NameRead` | garuda/src/qwen35/mod.rs:1271-1285 | The name the loader writes for block `l` is read as block `l`. |
| `Streams.NameIs` | garuda/src/qwen35/mod.rs:1271-1285 | And only such a name is read as a block: a number in range between the prefix and the next dot, with a plus sign or without. |
| `Streams.BlockSpans` | garuda/src/qwen35/mod.rs:1271-1302 | Each span is the least one with the block's tensors in it, or empty. |
| `Streams.TensorInside` | garuda/src/qwen35/mod.rs:1271-1302 | Every tensor of a block lies in its span. |
| `Streams.Hold` | garuda/src/qwen35/mod.rs:484-491 | Whole blocks are held within the budget, and one that is not held would not have fitted; held blocks are not streamed. |
| `Streams.RowsFill` | garuda/src/quant/mod.rs:89-98 | A matrix of whole-block rows is its rows one after another. |
| `Streams.LoadsWhen` | garuda/src/llama/mod.rs:319-352 | A block's weight loads exactly if it has the rows and columns asked for, its format can hold as many numbers and it lies in the file, whether the block is held or not. |
| `Streams.LoadedRow` | garuda/src/llama/mod.rs:319-352 | A weight loaded from any part of the file reads its tensor's rows. |
| `Streams.StreamedRow` | garuda/src/llama/mod.rs:99-108 | A mapped weight reads the same rows from a streamed block. |
| `Streams.RowsAgree` | garuda/src/qwen35/mod.rs:703-723 | Held, mapped or streamed, every row of every tensor is the same file bytes. |
| `Streams.Fill` | garuda/src/stream/mod.rs:154-176 | However the reads fall, a slot is marked ready only with exactly the block's bytes, and is if no read fails. |
| `Streams.BlockStreamer.Ahead` | garuda/src/stream/mod.rs:117-129 | A reader with the lock fetches, or finds the block there. |
| `Streams.BlockStreamer.Lend` | garuda/src/stream/mod.rs:131-143 | A borrow takes the slot as it is or reads inline, and holds it. |
| `Streams.GuardHolds` | garuda/src/stream/mod.rs:179-189 | Under every interleaving a borrowed slot does not change until its guard drops. |
| `Streams.BorrowedBytes` | garuda/src/stream/mod.rs:117-189 | From a borrow whose read finished to the drop, the slot is exactly its block's bytes. |
| `Ggufs.ReadValueBack` | garuda/src/gguf/mod.rs:169-208 | A spelled value, written or with another byte for a true, is read back at any depth, and refused exactly if it nests too deeply. |
| `Ggufs.HonestCount` | garuda/src/gguf/mod.rs:187-197 | A count is refused exactly if the bytes left cannot hold as many of the shortest entries, so never when they are there. |
| `Ggufs.LeastIsTaken` | garuda/src/gguf/mod.rs:219-231 | No type's least size is set too high or too low: some value takes just that. |
| `Ggufs.KindsAre` | garuda/src/gguf/mod.rs:169-207 | Which type numbers are numbers, how wide, which signed and which floats; and those of booleans, strings and arrays. |
| `Ggufs.LowestFirst` | garuda/src/gguf/mod.rs:169-207 | Integers are stored with the lowest byte first. |
| `Ggufs.ReadEntriesBack` | garuda/src/gguf/mod.rs:280-286 | The metadata of a written header is read back. |
| `Ggufs.ReadTensorsBack` | garuda/src/gguf/mod.rs:294-313 | The tensors are, refused exactly if one has more than four dimensions. |
| `Ggufs.CollectKeepsAll` | garuda/src/gguf/mod.rs:280-286 | Under distinct keys no entry is lost. |
| `Ggufs.NextMultipleIs` | garuda/src/gguf/mod.rs:313-321 | The data begins at the first multiple of the alignment. |
| `Ggufs.AlignmentIs` | garuda/src/gguf/mod.rs:313-321 | The magic is GGUF; the alignment is 32 unless a whole number stands under `general.alignment`. |
| `Ggufs.IsPower` | garuda/src/gguf/mod.rs:318-320 | The alignments accepted are powers of two. |
| `Ggufs.PowerIs` | garuda/src/gguf/mod.rs:318-320 | And every power of two is. |
| `Ggufs.ReadInvertsWriting` | garuda/src/gguf/mod.rs:247-329 | Whatever follows it, a written header comes back with its data offset, unless version, nesting, dimensions or alignment is out of bounds. |
| `Ggufs.ReadSpelled` | garuda/src/gguf/mod.rs:247-329 | The same of a header spelled with any non-zero byte for a true. |
| `Spelled.ValueSpelled` | garuda/src/gguf/mod.rs:169-208 | A value that is read is one a writer can write, of the type asked for and not too deep, and the bytes it was read from spell it. |
| `Spelled.AcceptsIff` | garuda/src/gguf/mod.rs:247-329 | The parser accepts exactly the buffers that begin with a spelled header within the bounds, and gives that header with its data offset. |
| `Ggufs.Cursor.Value` | garuda/src/gguf/mod.rs:169-208 | The recursive reader ends on any bytes, in bounds, as specified. |
| `Ggufs.Cursor.Metadata` | garuda/src/gguf/mod.rs:280-286 | Inserting while reading is collecting what was read. |
| `Ggufs.Parse` | garuda/src/gguf/mod.rs:247-329 | The parser ends on any bytes and gives what is specified, error for error. |
| `Ggufs.WriteThenParse` | garuda/src/gguf/mod.rs:247-329 | Writing and then parsing gives the header back. |
| `Civil.MarchIsCounted` | garuda/src/ollama/mod.rs:117-123 | The closed form for the first of March counts what the leap-year rule counts. |
| `Civil.YearFound` | garuda/src/ollama/mod.rs:118-121 | The division by 365 finds the year whose days the day is among. |
| `Civil.DateIsCounted` | garuda/src/ollama/mod.rs:113-127 | For every day the date is valid, and counting up to it gives the day back. |
| `Civil.StampIsCounted` | garuda/src/ollama/mod.rs:113-127 | For every second the stamp is valid, and counting up to it gives the second back. |
| `Civil.CountIsStamped` | garuda/src/ollama/mod.rs:113-127 | Every valid stamp is the one its count leads to. |
| `Civil.TextReads` | garuda/src/ollama/mod.rs:113-128 | The text is an RFC 3339 date-time exactly up to the end of 9999, and reads as the stamp. |
| `Civil.FirstBadSecond` | garuda/src/ollama/mod.rs:113-128 | Second 253402300800 prints a text that is no RFC 3339 date-time; the one before it prints one. |

## Left out

- `Runtime.DecodeSpeculating`: takes `out` empty at each call, as every caller passes it; the code scores and trims by `out.len()`.
- `Runtime.NextTokensSpeculative`: a sampled request's picks are arbitrary tokens here; their distribution is `Sampling`'s subject.
- `Runtime.NextToken`: logits are finite, so `sample` does not fail; which token a sampled request picks is `Sampling`'s subject.
- `Runtime.Verdict`: says nothing about which token a sampled request gets.
- `Sampling.StringsExact`: a round's guesses come from any function of the history, and `candidates` (top-k, top-p, temperature) is any function of the context.
- `Sampling.Walk`: over the reals the walk always ends inside the list; the code's fallback for rounding, and an `f32` draw of exactly 0, are not modelled.
- `Backend.LogitsMulti`: a backend is a deterministic function of the tokens absorbed; reads and allocations inside it do not fail. `Contracts` shows that the modelled forward pass meets it; other backends are taken at their word.
- `Scheduling.Scheduler.Submit`: one atomic step, though the code looks the semaphore up under the table lock and acquires it afterwards.
- `Scheduling.Scheduler.PurgeHeap`: a request cancelled while queued gets no terminal event, so at most one is claimed, not exactly one.
- `Scheduling.Scheduler.Iterate`: deadlines are a nondeterministic test, prefill budgets are arbitrary (so `Pacing` is not modelled), and a panicking decode worker is excluded. That the loop keeps turning, and so that every request ends, is not claimed.
- `KvCache.KVCacheState.Append`: nothing is claimed about files a reload leaves on disk, nor that every file is deleted in the end.
- `SpillFiles.RunSafe`: one layer's work is any operation that keeps that layer standing and touches only its own files, which every method of `KvCache` ensures.
- `Passes.SeqState.MixOne`: which blocks outside the window are on disk at any time is arbitrary here; the paging itself is `KvCache`'s, and `Paging` shows that its choice is one of those. An I/O failure inside a pass is not modelled.
- `Forward.LayerMajorIsTokenMajor`: norms, projections, attention over a window and the recurrent update are arbitrary functions of one token and the layer's state; a layer's projections are one function.
- `Rounds.ForwardTail`: a state built for another number of layers is not modelled.
- `Experts.FeedForwardBatch`: numbers are reals, and one row's dot product is any function.
- `Dots.Int8Dot`: `f32` is modelled by reals, so rounding is not; infinities and NaN read as 0.
- `Plain.DequantInto`: a number that is not finite reads as 0, so the rejection of such numbers by `dequantize` is not modelled.
- `Experts.Matmul`: rows run one after another; the code runs them in parallel.
- `PromptCaches.PromptCache.Get`: keys are token lists, so a collision of their 32-byte hashes is not modelled.
- `Spm.EncodeSpm`: the heap is a multiset whose greatest entry is popped; scores are ranks in the order the heap compares floats by. The vocabulary's lookup may hold control and byte tokens, as the code's does. The SPM and plain byte stream decoders, which drop pending bytes on malformed input, are not modelled.
- `Split.SplitBytes`: the Unicode classes are arbitrary sets that satisfy what the branches rely on.
- `Bpe.Load`: the lists are taken as read from the file; a rank is not cut to 32 bits.
- `Streams.BlockSpans`: an offset that overflows a machine word is not modelled.
- `Streams.Fill`: an error ends the fill; page-cache hints are not modelled. A borrow of a block number past the last is not read, and lends what the slot held.
- `Ggufs.Parse`: a machine word is 64 bits wide; floats are bit patterns; how much memory is reserved is not modelled.
- `Civil.StampIsCounted`: the clock is an argument.
- HTTP, streaming responses, authentication, configuration, the command line and the user interface: wire formats and assembly.
- `moe`, `attention`, `router`, `weights`, `memory`, `session`, `ExpertCache` and chat templates: simpler versions of what is modelled, or easy members.
- `prefetch` and `predictor`: advice that changes no answer.
