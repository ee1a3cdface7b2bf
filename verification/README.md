# The opinion daemon and its demos, verified

A Dafny model of `lfm2d`, a daemon that answers opinions, generations and chats
from one language model, and of three programs around it. Numbers are left to the
library; what is modelled is everything that decides which computation an answer is.

A model state is the sequence of blocks forwarded into it. That is the freest state a
deterministic model can have: two states equal here are equal in every such model, and
forwarding `a + b` is never assumed to be forwarding `a` then `b`. Logits are known by
the state they came out of. The sampler is a deterministic function of the logits, the
tokens seen and the grammar position. Callers leaving, deadlines, the jobs waiting at a
pause and every answer of a remote daemon are chosen freely, so each contract holds for
all of them.

| file | what it models |
|---|---|
| `Schedule.dfy` | token ids, blocks, the canonical schedule read off the ids, the tokenizer's contract |
| `Budgets.dfy` | what held states are charged, and the budgets the daemon refuses to start below |
| `Decoding.dfy` | one greedy step, generation, the description walk, why a generation may resume |
| `StateStore.dfy` | the byte-bounded store with group caps and pins |
| `SpecStore.dfy` | boot specs, uploads in order of last use, the prefix probe, the published menu |
| `Serving.dfy` | checkpoints, cache entries and what each must be, the answers of a daemon with empty caches |
| `Engine.dfy` | the adjudicator: every job on its caches and stores, with its pauses |
| `Worker.dfy` | the worker thread: what arrives and what becomes of it: two bounded queues, pauses, background work, stopping |
| `Template.dfy`, `Json.dfy`, `PyFloat.dfy`, `Numerals.dfy`, `Text.dfy` | the chat renderer, its JSON writer and Python floats, with the readers that invert them |
| `Reasoning.dfy` | the reasoning split and the streamed deltas |
| `Witness.dfy` | a tokenizer that keeps the contract, pairs of computations that share ids, a read answered stale |
| `Council.dfy` | the council's tabs and pinned contexts against a daemon that fails, restarts and loses answers |
| `TokenSpans.dfy` | BIOES span decoding |
| `Keyphrases.dfy`, `Passages.dfy` | candidate phrases and their selection, the byte-bounded splitter |

## What the code does where its documentation says otherwise

- `ChatResponse` promises that re-rendering the parts of a closed turn gives its bytes. It
  does exactly when the renderer accepts the parts (`Reasoning.ReRenders`); a turn with a
  tool call is refused (`Reasoning.ToolCallDoesNotReRender`).
- `text_delta` promises to fail when a decode rewrites what was sent. It fails when the
  decode shrank or is cut inside a character (`Reasoning.RewriteGoesUnnoticed`);
  `Reasoning.DeltaAgrees` is the exact condition for the stream to be right.
- The described cache is keyed by spec, prompt ids and field, as if a description were a
  function of them. It is one of the path too. Two pairs of reads have one key and other
  blocks: a read on a chat and on a context of the same ids
  (`Serving.SamePromptOtherPath`, `Witness.ChatIsNotItsContext`), and a plain read whose
  facts are the spec's block and a tail read on the spec's own system turn
  (`Serving.PlainAndTailDiffer`, `Witness.PlainIsNotTail`). After the plain read the tail
  read is answered with the plain one's slot, which is not the one it finds on empty
  caches (`Witness.StaleAnswer`, for any such spec; `Witness.HiIsStale`, for one). A read
  is answered as fresh exactly when what it finds held was described along its own blocks
  (`Engine.Adjudicator.ReadJob`, `Serving.ReadIsFresh`).
- `load` asks for room for a turn's two checkpoints so that the second cannot evict the
  first. It can: under pins (`StateStores.PinsCrowdOut`), or after reads of other
  checkpoints at the turn's pauses. `Engine.Adjudicator.ChatTurnJob` says exactly when
  both are held. Before the call, `Engine.Adjudicator.TurnInOrders` says it over every
  order of use the pauses may leave: both can be held if and only if they and the pins
  fit, and, when the first evicts nothing itself, surely are if and only if they fit with
  all that is held.
- `do_reset` never retires the old contexts when seeding fails
  (`Councils.Council.Reset` has the exact condition; `Councils.FailureStrands` says it over
  every point of failure, `Councils.ResetStrands` is a case).
- A refused pin is said to change nothing. It takes the new context away, but what was
  evicted to make room for it does not come back: the held set is as before if and only
  if the context was held already or there was room for it
  (`Engine.Adjudicator.BuildContext`; `StateStores.RefusedPinEvicts` is a case).
- A backfill with no tab included, or with two included tabs of one context, drops its
  causes; only one that fails keeps them (`Councils.Council.Backfill`).

## Model

| member | source | states |
|---|---|---|
| Schedule.ForwardedSplit | lfm2d/src/chat_session.rs:26-34 | Continuing from a held state and forwarding the rest is forwarding all the blocks, in every deterministic model; nothing is assumed of forwarding `a+b` against `a` then `b` |
| Schedule.SegmentsOf | lfm2d/src/chat_session.rs:26-34 | The segments read off the ids of a head and closed turns are exactly that head and those turns, whatever tokens the generated turns hold before their one EOS |
| Schedule.SplitIsUnique | lfm2d/src/chat_session.rs:26-34 | Ids split into a head and turns in one way: the canonical schedule is a function of the ids |
| Schedule.StateGrows | lfm2d/src/chat_session.rs:26-34 | Appending turns appends exactly their blocks: starting with A and B and continuing A with B reach one state |
| Schedule.RenderedHead | lfm2d/src/chat.rs:247-280 | A rendered head encodes to a head and decodes to its text |
| Schedule.RenderedTurn | lfm2d/src/chat.rs:282-332 | A rendered message encodes to one closed turn that decodes to its text and is a reply exactly when it is an assistant message |
| Schedule.GeneratedTurn | lfm2d/src/adjudicator.rs:2906-2986 | A generated turn closed by the newline is one turn whose canonical blocks are those generating it forwarded: the opening, each token alone with the EOS, the newline |
| Schedule.SchedulesAgree | lfm2d/src/chat_session.rs:59-64 | A chat and a prefill lay the same segments in the same blocks exactly when no segment is a reply |
| Schedule.ChatAndContextDiffer | lfm2d/src/chat_session.rs:59-71 | A chat checkpoint and a held context of the same ids are one state if and only if no turn of theirs was generated |
| Witness.TokFaithful | lfm2d/src/adjudicator.rs:1091-1170 | The contract put on the tokenizer is met by a concrete one |
| Witness.ChatIsNotItsContext | lfm2d/src/chat_session.rs:59-71 | Concrete ids whose chat state and context state differ |
| Decoding.StepsTrack | lfm2d/src/adjudicator.rs:2305-2347 | Wherever a greedy run stands, its state is the path and the generated tokens one by one, and its sampler and grammar position are the ones rebuilt from the history |
| Decoding.GeneratedAfter | lfm2d/src/adjudicator.rs:2321-2347 | A generation split at any step gives the same tokens and the same end |
| Decoding.GeneratedIsWritten | lfm2d/src/adjudicator.rs:2321-2347 | What a generation writes, without its recursion: the run's tokens up to the step that ended it, EOS last, with the run ended exactly there; or as many as were asked for, with no step of them the end |
| Decoding.DescribeFindsFirst | lfm2d/src/adjudicator.rs:3323-3383 | Each slot a description stops at is the first of its field along the run, whichever other fields were asked with it |
| Decoding.FirstSlotsAgree | lfm2d/src/adjudicator.rs:3323-3383 | Along one run there is one list of slots |
| Decoding.DescribesWhatItMeets | lfm2d/src/adjudicator.rs:3323-3383 | A run that meets every field's slot in turn within the budget, each before it writes past one, is described by exactly those slots |
| Decoding.DescribedWasMet | lfm2d/src/adjudicator.rs:3323-3383 | And only such a run is described |
| Decoding.RanOut | lfm2d/src/adjudicator.rs:3384-3419 | A description is unprocessable only when the run went on for its whole budget; any other end is internal |
| Decoding.SlotOpensValue | lfm2d/src/adjudicator.rs:3315-3316 | A field's slot is the place in a JSON object of that one field where its string's characters come next: the object closed there reads back with that value |
| Decoding.WritesPast | lfm2d/src/adjudicator.rs:3367-3370 | A token wrote past the slot exactly when the slot's last occurrence ends inside what that token wrote, before the end of the text |
| Decoding.HeldSlotIsFresh | lfm2d/src/adjudicator.rs:1269-1287 | A held description and a fresh one of the same prompt and field are the same slot if and only if they were described along the same blocks |
| Decoding.ResumedGeneration | lfm2d/src/adjudicator.rs:2239-2347 | Resuming at a held slot, sampler rebuilt and grammar advanced, gives the tokens, end and failure of the fresh generation on that path |
| Decoding.ResumesWhereFreshStands | lfm2d/src/adjudicator.rs:2246-2317 | The configuration a resume starts from is the fresh run's after as many tokens if and only if the slot was described along the fresh run's blocks |
| Serving.HeldAreFresh | lfm2d/src/adjudicator.rs:3212-3223 | The held slots of a whole read are the ones a read on empty caches finds if and only if each was described along the blocks this read prefills |
| Serving.SamePromptOtherPath | lfm2d/src/adjudicator.rs:1269-1271 | The described key does not record the path: a read on a chat checkpoint and on a held context of the same ids has one key, along blocks that agree exactly when no turn of theirs was generated |
| Serving.PlainAndTailDiffer | lfm2d/src/adjudicator.rs:1269-1271 | A plain read and a tail read on the held system turn of one spec may share the key with no generated turn; their blocks agree exactly when the spec's head fills whole chunks |
| Serving.PathsAgree | lfm2d/src/adjudicator.rs:1269-1271 | Two reads with one prompt prefill it along the same blocks exactly when they cut it in the same places |
| Serving.PathFlattens | lfm2d/src/adjudicator.rs:3240-3290 | Whatever path leads to a prompt, its blocks are the prompt's ids cut up |
| Serving.PlainPrompt | lfm2d/src/adjudicator.rs:3165-3168 | A plain read's ids are those of, and decode to, the spec's prefix, the input in one user turn and the reply's opening; refused only when they leave no room |
| Serving.TailPrompt | lfm2d/src/adjudicator.rs:3169-3199 | A tail read's ids are the checkpoint's, then those of the spec's block and the input in one user turn and the reply's opening; accepted exactly when the spec lists no tools, the checkpoint is held, there is room and the input does not merge with the head |
| Serving.TailNeedsBlock | lfm2d/src/adjudicator.rs:3169-3170 | A spec with no block in its prefix has no tail read |
| Serving.PromptBlocks | lfm2d/src/adjudicator.rs:3241-3290 | The blocks a read forwards: the spec's prefix and the rest each in chunks, or the checkpoint's state, the head in chunks and the rest in chunks; without the cache the whole prompt in chunks |
| Serving.FreshSlotsMet | lfm2d/src/adjudicator.rs:3300-3383 | A read on empty caches answers the slots its run after the prompt meets within the budget |
| Serving.FreshSlotsWereMet | lfm2d/src/adjudicator.rs:3300-3383 | And only slots so met |
| Witness.PlainIsNotTail | lfm2d/src/adjudicator.rs:1269-1271 | For any block free of `<`, label and text, both reads are accepted prompts with one key and no generated turn; their blocks differ exactly when the block's head does not fill whole chunks |
| Witness.StaleAnswer | lfm2d/src/adjudicator.rs:3212-3223 | With a model that writes the field's slot, the plain read leaves a good cache on which the tail read is answered with a slot that is not the one it finds on empty caches |
| Witness.SomeStale | lfm2d/src/adjudicator.rs:3212-3223 | Such a model, spec and cache exist for every block and field free of `<` whose head does not fill whole chunks |
| Witness.HiIsStale | lfm2d/src/opinion_api.rs:64-70 | One case: the block "x", the field "f", the input "hi" |
| Serving.ReadIsFresh | lfm2d/src/adjudicator.rs:3212-3230 | The described cache is invisible exactly to a read whose held slots were described along the blocks it would prefill |
| Serving.OnePathIsOwn | lfm2d/src/adjudicator.rs:1258-1284 | So it is while one path has led to each spec and prompt |
| Serving.DeepestIsDeepest | lfm2d/src/adjudicator.rs:1285-1301 | The deepest description is one that is held, and none held has more tokens |
| Serving.ResumeIsFresh | lfm2d/src/adjudicator.rs:2230-2317 | A resumed generation stands where the fresh one does if and only if the held description ran along the prompt's own blocks, and then writes the same |
| Serving.GeneratePrompt | lfm2d/src/adjudicator.rs:2223-2238 | A generation's ids are those of, and decode to, the named spec's prefix, the input in one user turn and the reply's opening; refused exactly when the key names nothing or `max_tokens` has no room after them |
| Serving.ResumesWhenHeld | lfm2d/src/adjudicator.rs:2239-2300 | A generation resumes exactly when the cache is taken, some description of this very prompt is held and each such leaves a token to write; it resumes one with the most tokens |
| Serving.GenerationIsGreedy | lfm2d/src/adjudicator.rs:2305-2347 | What a generation answers is the greedy run under the spec's grammar after its ids, up to its end or `max_tokens`, along the resumed description's blocks or the prompt's own |
| Serving.AskedInOrder | lfm2d/src/opinion_api.rs:342-358 | Questions resolved in order are emitted in order |
| Serving.ProbeIgnoresOrder | lfm2d/src/adjudicator.rs:3548-3592 | A probe's blocks do not depend on the order of use of the loaded specs |
| Serving.VerdictStandsAt | lfm2d/src/adjudicator.rs:3008-3052 | A verdict stands after the spec's prefix in chunks and the rest in chunks, or after the whole in chunks without the cache; refused exactly when the key names nothing, the prompt is past the context or does not go on from the prefix |
| Serving.ProbeStandsAt | lfm2d/src/adjudicator.rs:3501-3592 | A probe goes on from a resident prefix no shorter than any other within the bulk, then the bulk in chunks and the replay token by token; refused exactly for no ids, a split past them or a prompt past the context |
| Serving.SpecGone | lfm2d/src/adjudicator.rs:1337-1343 | Dropping the entries that name a spec leaves no orphan once the spec is gone |
| Serving.CheckpointsGone | lfm2d/src/adjudicator.rs:1344-1348 | Dropping the tail prefixes of checkpoints leaves no orphan once they are gone |
| Serving.RenderedWhole | lfm2d/src/chat.rs:601-609 | A rendered head and turns make a transcript of exactly those segments that decodes to their texts; without assistant turns a chat's state is the prefill of the segments |
| Serving.ChatContinues | lfm2d/src/adjudicator.rs:2818-2883 | A chat continued from a canonical state reaches the canonical state of the longer ids |
| Serving.ChatStandsFor | lfm2d/src/adjudicator.rs:2815-2851 | A chat's ids decode to the held text it continues, or the head it starts, and then exactly the messages sent, each as the template renders it |
| Serving.ChatRefused | lfm2d/src/adjudicator.rs:2796-2851 | A chat is refused only for turns or a length it may not have, a rendering the template refuses, a base that is not held or no chat, or no room for its reply |
| Serving.StoppedAtEnd | lfm2d/src/adjudicator.rs:2922-2946 | A generation that stopped itself wrote EOS once, at its end |
| Serving.ReplyIsGreedy | lfm2d/src/adjudicator.rs:2921-2987 | A reply is the greedy run after the chat's ids and the opening: it stopped exactly where the model ended the run, else it has `max_tokens` tokens; and only a stopped one leaves a checkpoint, of the ids, the opening, the tokens with their EOS and the newline |
| Serving.NoReply | lfm2d/src/adjudicator.rs:2921-2929 | There is no reply exactly when the prompt is refused or a step among those asked for breaks, and then with that failure |
| Serving.ReplyAdded | lfm2d/src/adjudicator.rs:2956-2987 | A generated turn closed leaves the canonical state and text of the longer ids |
| Serving.BuildContinues | lfm2d/src/adjudicator.rs:2730-2766 | Forwarding the rest from a prefix that ends at a turn gives the state of one whole build |
| Serving.BuildStandsFor | lfm2d/src/adjudicator.rs:2700-2722 | A context's ids decode to the rendered head and every message, one segment each; refused exactly for a rendering the template refuses or ids that fill the context |
| Serving.BuildsApart | lfm2d/src/adjudicator.rs:2700-2724 | Two builds have one id only when they render the same system text and the same turns in the same order |
| Engine.Adjudicator.constructor | lfm2d/src/adjudicator.rs:2024-2160 | A started daemon has its boot specs, empty stores and the invariant |
| Engine.Adjudicator.Load | lfm2d/src/adjudicator.rs:2100-2131 | The daemon starts exactly when a cached state at the full context fits its budget and a turn's two checkpoints theirs |
| Engine.Adjudicator.ForwardChunks | lfm2d/src/adjudicator.rs:734-749 | The state is the start and the chunks, whatever interactive jobs ran at the pauses |
| Engine.Adjudicator.ForwardSegments | lfm2d/src/adjudicator.rs:755-769 | The state is the start and each segment's own chunks, none across two segments |
| Engine.Adjudicator.Pause | lfm2d/src/adjudicator.rs:4545-4575 | A pause serves interactive jobs only and leaves the loaded specs, the held checkpoints and the queued tasks as they were |
| Engine.Adjudicator.Serve | lfm2d/src/adjudicator.rs:4185-4199 | No interactive job removes a spec or a checkpoint, and each keeps the invariant |
| Engine.Adjudicator.Hold | lfm2d/src/adjudicator.rs:1233-1245 | A cache entry that is what its key stands for is held, never refused under the start-up budget, and no other entry goes bad |
| Engine.Adjudicator.Ready | lfm2d/src/adjudicator.rs:1246-1257 | A ready hit is the state a prefill would compute |
| Engine.Adjudicator.DescribedSlot | lfm2d/src/adjudicator.rs:1272-1284 | A described hit is its field's first slot along its own path, and that path was described in this run of the daemon |
| Engine.Adjudicator.Deepest | lfm2d/src/adjudicator.rs:1285-1301 | What a generation may resume from is the deepest held description of exactly this spec and prompt, the most recently used of equals |
| Engine.Adjudicator.Tail | lfm2d/src/adjudicator.rs:1318-1325 | A tail hit is its checkpoint's state with the spec's head forwarded |
| Engine.Adjudicator.Prepare | lfm2d/src/adjudicator.rs:946-999 | Cached, resumed or cold, the state is the one the plain schedule gives; only a changed prefix is refused |
| Engine.Adjudicator.PrefillTail | lfm2d/src/adjudicator.rs:3241-3280 | A tail read's state is the checkpoint's with the read turn's two segments, tail prefix held or not; the length mismatch the source refuses cannot happen |
| Engine.Adjudicator.DescribeSlots | lfm2d/src/adjudicator.rs:3300-3419 | The description loop finds exactly the slots of the specification, and every one it caches is first on its own path |
| Engine.Adjudicator.ReadJob | lfm2d/src/adjudicator.rs:3103-3423 | Unless it is stopped, a read answers what the cache as it came decides: the held slots when every one is held, else what the read answers on empty caches, failures included; and it is that fresh answer exactly when the slots it found held were described along the blocks it would prefill itself. With the cache, its last question's description is held afterwards |
| Engine.Adjudicator.VerdictJob | lfm2d/src/adjudicator.rs:3008-3052 | The fixed question is scored at the plain schedule's state, and refused exactly for an unknown spec, a prompt past the context or one without the prefix |
| Engine.Adjudicator.ProbeJob | lfm2d/src/adjudicator.rs:3501-3608 | A probe's state is the longest resident prefix, the rest of the bulk in chunks and the replay token by token |
| Engine.Adjudicator.GenerateJob | lfm2d/src/adjudicator.rs:2198-2383 | Unless it is stopped, a generation writes what the cache as it came decides, whatever ran at its pauses: the generation along the deepest held description's own blocks, else the one on empty caches, with its end and its failure |
| Engine.Adjudicator.Decoded | lfm2d/src/adjudicator.rs:2318-2347 | The decode loop, the last token not forwarded, is the specified generation whatever its pauses serve |
| Engine.Adjudicator.TailPrefill | lfm2d/src/adjudicator.rs:2616-2653 | A background prefill keeps the specs, the checkpoints and the queue, and publishes no orphan; unless it is stopped it makes the prefix exactly when it is not held, its checkpoint and spec are, and the head has room after it, and then it is held |
| Engine.Adjudicator.HoldCheckpoint | lfm2d/src/adjudicator.rs:2654-2687 | A checkpoint within the context is never refused; the evicted ones take their tail prefixes and tasks with them |
| Budgets.BytesGrow | lfm2d/src/adjudicator.rs:1077-1089 | A longer state is never charged less |
| Budgets.EntriesFit | lfm2d/src/adjudicator.rs:1228-1232 | Everything the state cache is asked to hold within the context fits the budget the daemon starts with |
| Budgets.CheckpointFits | lfm2d/src/adjudicator.rs:2104-2108 | Every checkpoint within the context is charged at most a full one |
| Engine.Adjudicator.ContextDeleteJob | lfm2d/src/adjudicator.rs:2521-2532 | Exactly a held context is deleted, with what it leaves; a chat checkpoint never is |
| Engine.Adjudicator.FindBase | lfm2d/src/adjudicator.rs:2730-2742 | The base is the longest proper prefix of whole segments held as a context |
| Engine.Adjudicator.BuildState | lfm2d/src/adjudicator.rs:2730-2756 | Built from any held prefix or from nothing, the state is the context state of the ids |
| Engine.Adjudicator.BuildContext | lfm2d/src/adjudicator.rs:2693-2786 | Unless it is stopped, the answer is the content's id, or a refusal exactly when the pin would put more than half the budget under pins; the context held is canonical and pinned as asked, and every other pin is as before; a refused pin leaves the held set as it was if and only if the context was held before or there was room for it |
| Engine.Adjudicator.UserCheckpoint | lfm2d/src/adjudicator.rs:2852-2883 | Held already or forwarded now, the checkpoint is the canonical one of its ids |
| Engine.Adjudicator.Reply | lfm2d/src/adjudicator.rs:2921-2946 | The reply loop gives the specified tokens and, ended, the state after each of them and the EOS |
| Engine.Adjudicator.ChatTurnJob | lfm2d/src/adjudicator.rs:2792-3004 | Unless it is stopped, the reply is a function of the ids and `max_tokens`, failures included; the closing checkpoint is held and no other is new; with the store as the closing one came tied to the store before the turn, the user's is held too exactly when it survives, surely when all that is held and both fit, and only when both and the pins fit |
| Engine.Adjudicator.TurnInOrders | lfm2d/src/adjudicator.rs:2104-2108 | Over every order of use a turn's pauses may leave: both checkpoints can be held if and only if they and the pins fit; if the user's evicts nothing, both surely are if and only if they fit with all that is held |
| Engine.BothFit | lfm2d/src/adjudicator.rs:2104-2108 | With nothing pinned and the user's checkpoint the last used as the closing one comes, it survives under the budget `load` asks for |
| Engine.Adjudicator.RegisterJob | lfm2d/src/adjudicator.rs:2395-2464 | Unless it is stopped: loaded already, nothing changes; new, it is refused exactly when it does not load or the capacity is 0, else exactly it is added, the least recently used upload goes when full, and with that one exactly its cache entries; the published menu is the store |
| Engine.Adjudicator.UnregisterJob | lfm2d/src/adjudicator.rs:2466-2477 | What names a boot spec stays; an upload's id removes exactly it and its cache entries; anything else is missing |
| Engine.Adjudicator.BackgroundJob | lfm2d/src/adjudicator.rs:2534-2554 | Background work keeps the specs and the checkpoints; it takes tasks oldest first until one had work to do, dropping those that had none, and reports none only when its queue is empty and no task in it had any |
| Engine.Adjudicator.Run | lfm2d/src/adjudicator.rs:4319-4540 | Every job keeps the invariant: no orphan, every entry and checkpoint what its key stands for |
| Engine.Adjudicator.RunAll | lfm2d/src/adjudicator.rs:4245-4291 | The invariant holds after any run of jobs with background work between them |
| StateStores.MakeRoomIsLeast | lfm2d/src/state_store.rs:158-168 | Eviction by bytes drops the oldest unpinned entries and the fewest that suffice |
| StateStores.MakeRoomThins | lfm2d/src/state_store.rs:158-168 | Room is always found when the pins leave it; only unpinned entries go and the rest keep their order |
| StateStores.CapGroupThins | lfm2d/src/state_store.rs:144-157 | A group's cap takes only unpinned members of the group; every other entry stays, in its order |
| StateStores.CapGroupIsLeast | lfm2d/src/state_store.rs:144-157 | A group's cap drops the oldest unpinned members of the group, and the fewest that bring it below the cap or leave no such member |
| StateStores.AdmittedThins | lfm2d/src/state_store.rs:120-172 | After an insertion the ids are distinct, the bytes within budget, every pinned entry still held |
| StateStores.AdmittedWithinCap | lfm2d/src/state_store.rs:144-157 | A group without pins never exceeds its cap |
| StateStores.SurvivesRoom | lfm2d/src/state_store.rs:158-168 | An unpinned entry stays exactly when it, all used after it, the pins before it and the new bytes fit together |
| StateStores.NewestSurvives | lfm2d/src/state_store.rs:158-168 | What was used last stays exactly when it, the pins and the new bytes fit |
| StateStores.SurvivesInOrders | lfm2d/src/state_store.rs:158-168 | Over every order of use an unpinned entry stays in all of them if and only if everything fits with the new bytes, and in some if and only if it, the pins and the new bytes do |
| StateStores.PinsCrowdOut | lfm2d/src/adjudicator.rs:2104-2108 | Concrete pins under which one more entry takes the newest away, though two of its size fit the budget |
| StateStores.TakenBack | lfm2d/src/adjudicator.rs:2766-2776 | An entry held and taken away again leaves the store as it was exactly when there was room for it |
| StateStores.RefusedPinEvicts | lfm2d/src/adjudicator.rs:2766-2776 | A concrete refused pin that has evicted an entry |
| StateStores.StateStore.SetPinned | lfm2d/src/state_store.rs:63-82 | A pin is refused exactly when it would put more than half the budget under pins, and then nothing changes; else exactly that entry's pin is as asked |
| StateStores.StateStore.Remove | lfm2d/src/state_store.rs:83-89 | Exactly the named entry goes, pinned or not; the rest keep their order |
| StateStores.StateStore.Get | lfm2d/src/state_store.rs:98-105 | The value, the entry moved to most recently used, the rest in order |
| StateStores.StateStore.InsertIn | lfm2d/src/state_store.rs:111-172 | An id keeps its first value and its entry moves to most recently used; what could not fit beside the pins is refused and evicts nothing; a cap of 0 keeps a new id out; else the store is what was held less exactly the evicted ids, and the new entry last |
| StateStores.StateStore.Retain | lfm2d/src/state_store.rs:173-186 | Exactly the entries whose id passes remain, in their order, and the byte count is theirs |
| Specs.BestPrefix | lfm2d/src/adjudicator.rs:875-882 | The winner is a strict prefix and no candidate is longer |
| Specs.BestPrefixIgnoresOrder | lfm2d/src/adjudicator.rs:854-882 | The winning prefix's tokens do not depend on the order of the specs |
| Specs.Named | lfm2d/src/adjudicator.rs:1892-1902 | A key names nothing exactly when no boot spec has it as id or name and no upload as id; a boot spec whenever one matches; else the upload of exactly that id |
| Specs.Winner | lfm2d/src/adjudicator.rs:875-882 | The winner is a candidate no candidate is longer than, and there is none only without candidates |
| Specs.ApplySound | lfm2d/src/adjudicator.rs:1868-1986 | Every operation keeps ids distinct, apart from the boot specs, and uploads within capacity |
| Specs.InsertNeedsCapacity | lfm2d/src/adjudicator.rs:1943-1950 | Registering without the capacity guard keeps the bound if and only if the capacity is at least one |
| Specs.HistoryKeeps | lfm2d/src/adjudicator.rs:1868-1986 | Over every history the deque's order is the order of last use, ids stay distinct and within capacity, and the published menu holds exactly the store's specs |
| Specs.UnpublishedKeeps | lfm2d/src/adjudicator.rs:4415-4435 | An operation that does not publish the menu keeps the set of loaded specs |
| Specs.VictimIsLeastRecent | lfm2d/src/adjudicator.rs:1965-1974 | A registration that evicts takes the least recently used upload |
| Specs.SpecStore.ResolveKey | lfm2d/src/adjudicator.rs:1892-1902 | The spec the key names, boot first by id or name, else the upload with that id, which is touched; the set of specs stays |
| Specs.SpecStore.ResolveBestPrefix | lfm2d/src/adjudicator.rs:1925-1938 | The longest strict prefix, an upload touched |
| Specs.SpecStore.RegisterOrLoad | lfm2d/src/adjudicator.rs:1951-1972 | Loaded already: the set stays; new: exactly it is added and the evicted id is gone |
| Specs.SpecStore.Unload | lfm2d/src/adjudicator.rs:1977-1985 | Exactly the named upload goes; a boot spec's id or name never does |
| Template.ScanRecovers | lfm2d/src/chat.rs:247-364 | A scanner recovers the system text and every turn's role and body from the rendered bytes: no accepted content forms framing, across a join or within |
| Template.RenderingInjective | lfm2d/src/chat.rs:601-616 | Chats that render to the same text have the same system text and the same turns |
| Template.RenderingPrefix | lfm2d/src/chat.rs:601-616 | Rendering the first messages gives the first segments, and a prefix of the whole text |
| Template.PromptClean | lfm2d/src/chat.rs:265-280 | A rendered system turn's text holds no control marker, whatever the tools |
| Template.BodyFree | lfm2d/src/chat.rs:282-332 | No rendered body holds the turn's end |
| Template.CallsClean | lfm2d/src/chat.rs:334-364 | Rendered tool calls form no control marker, whatever the arguments |
| Template.PromptReads | lfm2d/src/chat.rs:247-280 | The system turn's text is the system text and then, on a line of their own, the tools as one JSON list that reads back as given; refused exactly for a tool that is no object or a marker in a tool's JSON or in the system text |
| Template.TurnsHold | lfm2d/src/chat.rs:282-332 | Turn by turn, what is framed is the message: a user's or tool's content as it is, an assistant's thinking in its tags, its reply, its calls between their markers |
| Template.ArgumentReads | lfm2d/src/chat.rs:345-360 | A string argument stands raw in single quotes and an object reads back as JSON, each after its key |
| Template.PyStrReads | lfm2d/src/chat.rs:490-520 | A Python string literal reads back as its string and ends where it ends; it is refused exactly for a character without a literal, and takes double quotes exactly where they save escaping |
| Json.JsonRoundTrip | lfm2d/src/chat.rs:392-442 | A reader for sections 6 and 7 of RFC 8259 gives back every nested value: escapes, key order, integers and floats told apart |
| Json.StringReads | lfm2d/src/chat.rs:426-442 | A written string reads back, every control character included, and the reader stops at its end |
| Json.WriteString | lfm2d/src/chat.rs:426-442 | The character loop appends exactly the specified string |
| Json.WriteJson | lfm2d/src/chat.rs:392-425 | The recursive writer with its loops appends exactly the specified text |
| PyFloat.FloatDenotes | lfm2d/src/chat.rs:560-592 | In all four layouts the text is a number of section 6 of RFC 8259 that denotes exactly sign, digits and exponent |
| PyFloat.FloatLooksFloat | lfm2d/src/chat.rs:560-592 | The text always carries a `.` or an `e` |
| PyFloat.IntDenotes | lfm2d/src/chat.rs:392-400 | A written integer denotes itself and is told apart from every float |
| Reasoning.SplitReassembles | lfm2d/src/chat_session.rs:242-250 | The parts make the same text again, closed, absent or cut off, and the thinking never holds the close |
| Reasoning.RenderedSplits | lfm2d/src/chat.rs:297-316 | Rendered thinking and content split back into themselves |
| Reasoning.ReRenders | lfm2d/src/chat_session.rs:188-196 | Rendering the split parts again gives the same bytes if and only if the renderer accepts the parts |
| Reasoning.ToolCallDoesNotReRender | lfm2d/src/chat_session.rs:188-196 | A turn with a tool call does not render again |
| Reasoning.Stream.TextDelta | lfm2d/src/chat_session.rs:255-266 | The bytes streamed so far are the decode exactly when the decode is not held back and extends what was sent, at a character's first byte |
| Reasoning.StreamIsLastDecode | lfm2d/src/chat_session.rs:255-266 | When decodes only extend what was sent, the deltas joined are the last decode that does not end in U+FFFD |
| Reasoning.DeltaAgrees | lfm2d/src/chat_session.rs:255-266 | The text sent after a delta is the decode if and only if the decode extends what was sent |
| Reasoning.RewriteGoesUnnoticed | lfm2d/src/chat_session.rs:252-266 | A concrete rewrite of bytes already sent that is not refused |
| Workers.Worker.Serve | lfm2d/src/adjudicator.rs:4245-4291 | All that was to come has come: each submission, in order, entered its queue when the daemon was not told to stop and there was room, and was refused otherwise. It returns with all handles gone, all queues drained and nothing under way; every accepted job was started once in the order of its class and replied to once; nesting was at most one deep and only of interactive jobs, each reply was the innermost job's, and every generative job and background task began on a look of its own pick that found nothing above it |
| Workers.EachPickLooks | lfm2d/src/adjudicator.rs:4245-4278 | Right after anything began, ended or went on, no class counts as idle but a closed one |
| Workers.PausesServe | lfm2d/src/adjudicator.rs:4549-4571 | In any log in turn: when a job or task below the interactive class goes on after a pause, every interactive job accepted by its last look has begun, and every one begun has been replied to |
| Workers.Worker.Submit | lfm2d/src/adjudicator.rs:4664-4690 | A submission is refused exactly when the daemon is stopping or its class's queue is full, and else enters that queue at the back |
| Workers.Worker.TryReceive | lfm2d/src/adjudicator.rs:4247-4264 | The oldest of the class's queue starts; empty and closed are told apart |
| Workers.Worker.Run | lfm2d/src/adjudicator.rs:4318-4540 | One job ends with one reply, whatever it pauses for and whenever it fails |
| Workers.Worker.Pause | lfm2d/src/adjudicator.rs:4545-4572 | Unless it stops what paused, a pause of a job or task below the interactive class ends on a look that finds the interactive queue empty, every interactive job before it run to completion; an interactive job's pause serves nothing; and it stops what paused only when that was to be cut or the daemon is stopping |
| Workers.Worker.Background | lfm2d/src/adjudicator.rs:4270-4317 | A background task needs both queues found empty or closed with nothing begun or ended since |
| Councils.Council.PinnedExactly | demo/web/council.py:482-532 | Whatever faults came before, the pinned contexts are exactly the tabs' if and only if every tab's is held and nothing leaked or stranded still is, but under a tab |
| Councils.Council.Retire | demo/web/council.py:512-532 | A context a tab still holds is never deleted; any other is, or is accounted as leaked |
| Councils.Council.Repin | demo/web/council.py:568-617 | A changed tab is pinned and its old context retired, or everything is as before |
| Councils.Council.SeedTabs | demo/web/council.py:457-466 | Seeding appends pinned tabs in order and may stop part way |
| Councils.Council.TabAdd | demo/web/council.py:554-566 | A tab is added pinned with its cause, or nothing changes |
| Councils.Council.TabUpdate | demo/web/council.py:568-590 | A refused pin leaves tab, causes and pins as before; a change to what is read notes a cause |
| Councils.Council.TabRemove | demo/web/council.py:592-600 | The tab goes; without a fault, of the contexts exactly its own goes when no other tab shares it, and none else |
| Councils.Council.EditMessages | demo/web/council.py:602-617 | The messages are replaced and pinned, or as before |
| Councils.Council.Ask | demo/web/council.py:663-732 | The question and the reply both join the tab, and its next ask goes on from that reply, or neither does; at most one request is sent, and it is the tab's route and the question |
| Councils.RouteIsWhole | demo/web/council.py:645-658 | An ask never sends a reply back as text, and what it sends after what the chat held is exactly the tab |
| Councils.SentIsWhole | demo/web/council.py:645-668 | What is sent is the tab's system text and whole conversation with the question, or the chat that held it and the rest with the question |
| Councils.RoutedWhenHeld | demo/web/council.py:645-658 | An ask is routed exactly when the chat it would continue, under the same system text, holds every reply of the tab with all before it |
| Councils.Council.RepinAll | demo/web/council.py:502-510 | After a restart every tab comes back under its own id; with nothing leaked or stranded the pinned contexts are exactly the tabs' again |
| Councils.Council.ReadOne | demo/web/council.py:753-778 | A read is over the contexts and spec asked; at most three requests, one upload of the specs and one pinning of the tabs; contexts that are held are not pinned again |
| Councils.RefusedToRead | demo/web/council.py:736-745 | A read is refused exactly with no tab included or with two included tabs of one context |
| Councils.IdsInOrder | demo/web/council.py:736-745 | The contexts of two runs of tabs joined are the one's and then the other's: they are read in the tabs' order |
| Councils.Council.Decide | demo/web/council.py:865-876 | One decision is appended, over the included tabs in order, or none |
| Councils.Council.Backfill | demo/web/council.py:878-917 | A failed backfill changes no decision and keeps every cause; a finished one leaves each recent decision over the contexts and spec of now, its old read kept and its flip marked |
| Councils.Council.Reset | demo/web/council.py:974-984 | A reset whose seeding fails after some seeds leaves nothing stray pinned if and only if every old context is one of those seeds' own |
| Councils.FailureStrands | demo/web/council.py:974-984 | Over every seed the failure may come at: no failure strands a context if and only if there was none, and some failure does not if and only if all but the last seed cover them |
| Councils.ResetStrands | demo/web/council.py:974-984 | A council at its two seeds, failing at the second, strands that one's context |
| TokenSpans.DecodeSpans | src/token_classification.rs:330-370 | One span for each maximal run of tokens, over its bytes, of its type, scored by its weakest token |
| TokenSpans.InOneRun | src/token_classification.rs:336-370 | Each labelled token lies in exactly one run |
| TokenSpans.RunEntity | src/token_classification.rs:349-369 | All of a run's tokens are of its type |
| TokenSpans.SpansApart | src/token_classification.rs:330-370 | With monotone offsets the spans are ordered, disjoint and not empty |
| TokenSpans.Trim | src/token_classification.rs:372-381 | Exactly the whitespace at both ends goes |
| TokenSpans.Predict | src/token_classification.rs:330-384 | The output is the trimmed spans that are not empty: ordered, disjoint, no whitespace at either end |
| TokenSpans.DecodedIsUnique | src/token_classification.rs:330-370 | Decoding is a function of the tokens: there is one list of spans |
| TokenSpans.CutIsUnique | src/token_classification.rs:336-370 | There is one way to cut tokens into runs |
| TokenSpans.DecodingInvertsEncoding | src/token_classification.rs:336-370 | Decoding the BIOES tags of any well-formed list of entities gives that list back, neighbours of one type kept apart |
| Keyphrases.ShareBudget | demo/keyphrases.py:91-97 | The quotas are max-min fair within the group sizes and spend min(budget, total) |
| Keyphrases.CountsWhen | demo/keyphrases.py:73-90 | A phrase counts exactly when it is one to three words, none a stopword, with only spaces and tabs between, at least three characters by its identity and at most 384 bytes |
| Keyphrases.FairIsBest | demo/keyphrases.py:91-97 | No other allocation gives the groups more at any level |
| Keyphrases.SpreadClimbs | demo/keyphrases.py:99-103 | Two or more positions climb strictly from the first to the last |
| Keyphrases.SpreadEven | demo/keyphrases.py:99-103 | One position is the middle one; of two or more each gap is the even one rounded down or one more |
| Keyphrases.Extract | demo/keyphrases.py:73-90 | The groups hold exactly the first occurrences of the eligible identities, each in the group of its length, in the order of the text |
| Keyphrases.SelectedApart | demo/keyphrases.py:98-104 | What the quotas take is as many as they say, each of its group, no identity twice |
| Keyphrases.Candidates | demo/keyphrases.py:69-104 | Exactly min(budget, number of identities) distinct phrases in source order; a budget out of 3 to 96 is refused |
| Keyphrases.Greedy | demo/keyphrases.py:121-131 | At most `count` phrases, each the best of what overlaps none before it; fewer only when every phrase overlaps a chosen one |
| Keyphrases.OverlapShares | demo/keyphrases.py:130-131 | Phrases overlap exactly when they share a character of the source |
| Passages.Chunks | demo/lfm2.py:111-132 | Refused exactly for a text of whitespace; else ordered disjoint exact slices of at most 384 UTF-8 bytes within their paragraphs, covering every other character, each the longest that fits there and cuts no word, or cut inside a word only when it fills the slice |
| Passages.CutEnd | demo/lfm2.py:119-127 | The cut moves forward, fits and falls at whitespace where there is any; no later cut fits but inside a word |
| Passages.NextParagraph | demo/lfm2.py:114-117 | The paragraph pattern: from the first character that is no space to the first blank line after it |
| Passages.InOnePassage | demo/lfm2.py:111-132 | Each character that is no space lies in exactly one passage |

## Left out

- Tensor arithmetic, the GGUF loader, device selection and timing: library numerics.
- The tokenizer's merges: `Schedule.Faithful` is the contract used, decoding undoes encoding, `<|im_end|>` is one token text never makes otherwise, and a turn's end has its own ids in place.
- SHA-256: ids are constructors over the token ids, injective and apart for chats and contexts; the cache's string keys are constructors too, so their splitting at `:` is not modelled.
- `Decoding.EmissionOrdered`: the grammar's fixed key order, taken as a contract; it can fail only when one field's slot text ends with another's.
- Option scoring, the described fields' parse and the answer's numbers: functions of the slot a read stands at.
- Per-step distributions, `top_k`, the probe's own generation and report validation: read off states already determined.
- A multi-context read: its reads one after another, then pooled arithmetic.
- `read_specs`: which specs a chat was read with is an arbitrary list where it is used.
- The menu's kinds and options: a question is a field at its place among the spec's fields.
- Streaming events of a chat turn: the deltas are in `Reasoning.dfy`, their transport is not.
- `Engine.Adjudicator.VerdictJob`: the option split of the fixed question is an arbitrary list of ids.
- `Workers.Worker.Serve`: a signal to stop after the last handle is gone is not an arrival; at a pause it is one of the ways a job stops.
- Specs loaded at boot and by upload are taken with what loading checks (`Serving.SpecOk`).
- A text's bytes are its length, a tokenizer's pieces being byte strings; `usize` overflow of the budgets is not modelled.
- `py_str_repr`'s table of characters beyond ASCII is a parameter; shortest float digits are an input; unpaired surrogate escapes are refused by the JSON reader.
- Request validation limits other than the ones named, HTTP, SSE, telemetry and locks.
- The council's fixed framing before a tab's name: a constant in front of every system text.
- The council's boot retry, pool arithmetic, replay, the page's events and its HTTP routes; `rank_loud` is a sort of floats that no other step reads.
- Scores are reals: rounding and NaN of the span decoder are not modelled.
- `prose_mask` and the word pattern: words are given by their offsets in the masked text.
- `render_html` and `extract`: the one escapes and joins slices in order, the other is the greedy selection of `Keyphrases.Greedy` without its overlap test; both would only add easy members.
- `Keyphrases.Greedy`: scores are an arbitrary function of what is chosen, ties to the first.
