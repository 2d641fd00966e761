# Sequence bookkeeping and token sampling of the rLLM inference server

This project models two pieces of the rLLM inference server in Dafny.

- **Sequences and sequence groups** (`infer/src/seq.rs`, module `Seq`).
  - A `Sequence` is one generation branch. It has a token buffer whose first `promptLen` tokens are the prompt. It also has a scheduling phase (waiting, running, swapped, or finished with a reason) and lists of paged key/value-cache block handles.
  - A `SequenceGroup` is one request. It holds its branches, its sampling parameters and its sampler.
  - Both are classes whose fields the methods update in place.
  - Block handles are plain values that name a physical block.
- **The per-request sampler** (`rllm/src/logits.rs`, modules `Logits` and `Ranking`).
  - Greedy argmax, with a counter of near-tie steps.
  - Nucleus (top-p) clamping done in place on an array of probabilities.
  - The weighted multinomial draw.
  - The dispatch between these.
  - `Ranking` defines the stable descending argsort that both sorts rely on, and proves its head and runner-up properties.

Logits and probabilities are `real`s. The random generator's draw is a parameter `u` in [0, 1). Module `Wrappers` holds `Option` and `Result`. Module `Config` holds the sampling-parameter fields these files read.

Main results:

- **Nucleus clamping.**
  - The in-place clamp loop (`SampleTopp`) leaves exactly `Nucleus(prs, topP)`.
  - The entries kept are the shortest descending prefix whose sum reaches `top_p`, or all entries when no prefix does.
  - The zeroed entries form a suffix of the descending order.
  - The most probable entry always survives.
  - A draw from the clamped vector lands on a kept entry.
- **Weighted draw.** It fails exactly on an empty vector, a negative weight, or an all-zero vector. Otherwise it returns the positive-weight index whose cumulative interval holds the draw.
- **Greedy decoding.** It returns a maximal logit, the smallest such index on ties. It counts a step as ambiguous exactly when the relative margin of the best two logits is below 0.05. Every step whose top logit is negative counts as ambiguous.
- **Cache slots.**
  - A slot lies in the block named by the position's block number, at the position's offset in that block.
  - Distinct positions get distinct slots when the blocks are distinct.
  - A fork shares its parent's slots.
- **Forking.** `fork_as` clones the token buffer and then appends the parent's tokens once more. So the fork holds the parent's tokens twice, and its generated output differs from the parent's whenever the parent holds any token. This is modelled as written, and `Seq.ForkRepeatsParentTokens` states the consequence.
- **Groups.**
  - Phase filtering keeps exactly the members in that phase, in order.
  - The running-branch bound covers every running branch when beam search is off.
  - A finished group runs nothing.

## Model

| member | source | states |
|---|---|---|
| Seq.Sequence.constructor | infer/src/seq.rs:64-78 | a new sequence is waiting, at the prompt step, holds exactly the prompt (prompt length = token count) and has no blocks |
| Seq.Sequence.GetLen | infer/src/seq.rs:80-82 | the length counts the whole buffer, so it is at least the prompt length |
| Seq.Sequence.GetGenLen | infer/src/seq.rs:84-86 | prompt length plus generated length is the total length (the subtraction never underflows) |
| Seq.Sequence.GetGpuSlot | infer/src/seq.rs:88-92 | the slot divided by the block size is the index of the block holding the position; the slot's offset in its block equals the position's offset |
| Seq.SlotDivMod | infer/src/seq.rs:91 | block index times block size plus an in-block offset divides back into that block and that offset |
| Seq.GpuSlotInjective | infer/src/seq.rs:88-92 | when the sequence's blocks are pairwise distinct, distinct positions map to distinct slots |
| Seq.GpuSlotsOfDisjointSequences | infer/src/seq.rs:88-92 | two sequences sharing no block never map any positions to the same slot |
| Seq.BlockRef.Fork | infer/src/seq.rs:102 | a forked handle names the same physical block |
| Seq.ForkAll | infer/src/seq.rs:102-103 | forking a block list forks each handle in order, keeping its length |
| Seq.Sequence.ForkAs | infer/src/seq.rs:95-108 | the fork is fresh, has the new id, the same phase, step type, prompt length and block size, forked block lists, and tokens equal to the parent's tokens twice; the parent is unchanged |
| Seq.ForkSharesGpuSlots | infer/src/seq.rs:95-108 | a fork maps every position to the same slot as its parent |
| Seq.ForkRepeatsParentTokens | infer/src/seq.rs:95-108 | a fork's generated length is the parent's length plus its generated length; its output is the parent's output followed by the parent's whole buffer, so it differs from the parent's output whenever the parent holds a token |
| Seq.Sequence.AppendTokensToBlocks | infer/src/seq.rs:110-112 | the buffer is extended by exactly the given tokens, nothing else changes |
| Seq.Sequence.AppendTokenId | infer/src/seq.rs:114-116 | the buffer gains exactly the one token at its end and the prompt stays a prefix |
| Seq.Sequence.GetFinishReason | infer/src/seq.rs:118-123 | a reason is present exactly when the phase is finished, and it is that phase's reason |
| Seq.Sequence.GetOutput | infer/src/seq.rs:125-131 | the output carries the sequence id and the finish reason; prompt followed by output tokens is the buffer, and the output length is the generated length |
| Seq.Sequence.IsFinished | infer/src/seq.rs:133-135 | a sequence is finished exactly when its phase is finished |
| Seq.SequenceGroup.constructor | infer/src/seq.rs:139-145 | a group holds the given request id, members, sampling parameters and sampler |
| Seq.SequenceGroup.GetMaxNumRunningSeqs | infer/src/seq.rs:163-180 | under beam search it is `best_of`; without it, exactly `best_of` while `best_of` exceeds the member count and exactly the number of running members once it does not, so it is always at least the number of running members; it never exceeds the larger of `best_of` and the member count |
| Seq.ExpandedGroupCountsRunning | infer/src/seq.rs:169-177 | without beam search, a group of three branches with `best_of` 3, two running and one finished, may run two branches |
| Seq.SequenceGroup.OnlySeq | infer/src/seq.rs:182-188 | on a one-member group it returns that member |
| Seq.SequenceGroup.Positions | infer/src/seq.rs:193-197 | the selected positions increase strictly, are in range, all match the filter, and include every matching position |
| Seq.SequenceGroup.GetSeqs | infer/src/seq.rs:191-200 | without a filter it is all members; with a phase it lists the matching members in member order |
| Seq.SelectedIsMember | infer/src/seq.rs:193-197 | every member selected by a phase filter is a member in that phase |
| Seq.GetSeqsSelectsPhase | infer/src/seq.rs:191-200 | a sequence is in the filtered list exactly when it is a member in the filtered phase |
| Seq.SequenceGroup.NumSeqs | infer/src/seq.rs:203-205 | the count is at most the member count, equal to it without a filter, and the number of selected positions with one |
| Seq.SequenceGroup.Add | infer/src/seq.rs:209-211 | the member list gains exactly the new sequence at its end |
| Seq.SequenceGroup.IsFinished | infer/src/seq.rs:214-216 | a group is finished exactly when every member's phase is finished (so an empty group is finished) |
| Seq.FinishedGroupRunsNothing | infer/src/seq.rs:214-216 | a finished group has no running member |
| Seq.SingleBranchFinished | infer/src/seq.rs:214-216 | a one-member group is finished exactly when its only member is |
| Ranking.Insert | rllm/src/logits.rs:82 | inserting a fresh index into a sorted order yields a sorted order holding exactly the old entries and the new one |
| Ranking.ArgsortPrefix | rllm/src/logits.rs:79-82 | the sort of the first m indices holds exactly the indices below m, in stable descending order |
| Ranking.ArgsortDesc | rllm/src/logits.rs:79-82 | the result is a stable descending arrangement of all the indices: higher score first, equal scores by increasing index |
| Ranking.IndexOf | rllm/src/logits.rs:86 | the position found holds the index, no earlier position does, and it is in range exactly when the index is present |
| Ranking.SortedDistinct | rllm/src/logits.rs:79-82 | a sorted order never repeats an index |
| Ranking.IndexOfSorted | rllm/src/logits.rs:86 | in a sorted order each entry is found at its own position |
| Ranking.ArgsortHead | rllm/src/logits.rs:38-39 | the first index of the argsort holds a maximal score and no smaller index scores as high |
| Ranking.ArgsortRunnerUp | rllm/src/logits.rs:38-40 | the second index differs from the first and scores highest among all other indices |
| Logits.LogitsProcessor.constructor | rllm/src/logits.rs:21-35 | a temperature below `SAMPLING_EPS` selects greedy decoding, otherwise the temperature is kept; top_p is copied and the ambiguity counter starts at zero |
| Logits.TopIndex | rllm/src/logits.rs:38-39 | the greedy index holds a maximal logit, and every smaller index has a strictly smaller logit |
| Logits.RunnerUp | rllm/src/logits.rs:40 | the runner-up value is the logit of some other index and bounds every other index's logit |
| Logits.NegativeTopIsAmbiguous | rllm/src/logits.rs:40-42 | when the top logit is negative the margin is never positive, so the step always counts as a near tie |
| Logits.NearTieExample | rllm/src/logits.rs:40-42 | logits 5.0, 4.9, 1.0 are a near tie |
| Logits.ClearWinnerExample | rllm/src/logits.rs:40-42 | logits 5.0, 1.0, 0.5 are not a near tie |
| Logits.LogitsProcessor.SampleArgmax | rllm/src/logits.rs:37-59 | the result is the greedy index (maximal, smallest on ties), and the counter grows by one exactly when the step is a near tie |
| Logits.SumPrefixStep | rllm/src/logits.rs:90 | extending a prefix by one entry adds that entry to its sum |
| Logits.SumNonNegative | rllm/src/logits.rs:70 | non-negative weights have a non-negative total |
| Logits.Locate | rllm/src/logits.rs:71 | a point in the cumulative range lands in exactly the interval of one index at or after the start |
| Logits.DrawPoint | rllm/src/logits.rs:71 | a uniform draw in [0, 1) scales to a point in [0, total) |
| Logits.Draw | rllm/src/logits.rs:71 | the drawn index is in range, has positive weight, and its cumulative interval holds the point |
| Logits.SampleMultinomial | rllm/src/logits.rs:69-73 | it fails with no-item exactly on an empty vector, with invalid-weight exactly on a negative weight, and with all-zero exactly when valid weights sum to zero; otherwise the index has positive weight and its cumulative interval holds the scaled draw |
| Logits.KeepFrom | rllm/src/logits.rs:85-92 | the kept count is the first length whose descending prefix sum reaches top_p, or all entries |
| Logits.Ranked | rllm/src/logits.rs:86-91 | the probabilities listed in the given order |
| Logits.Nucleus | rllm/src/logits.rs:84-92 | the clamped vector has the same length, and every entry is either kept as it was or zero |
| Logits.NucleusKeepsShortestPrefix | rllm/src/logits.rs:76-92 | an entry survives exactly when its rank is below the kept count, and the kept count is the shortest descending prefix whose sum reaches top_p, or all entries |
| Logits.NucleusFromRanks | rllm/src/logits.rs:85-92 | a vector that keeps the first ranks and zeroes the rest equals the nucleus |
| Logits.NucleusZeroesSuffix | rllm/src/logits.rs:86-92 | once an entry of the descending order is zeroed, every later one is too |
| Logits.NucleusKeepsTop | rllm/src/logits.rs:84-92 | with a positive threshold the most probable entry survives unchanged |
| Logits.NucleusDrawIsKept | rllm/src/logits.rs:93-94 | a successful draw from the clamped vector is an entry that survived clamping |
| Logits.ExampleOrder | rllm/src/logits.rs:79-82 | probabilities 0.5, 0.3, 0.15, 0.05 sort to the identity order |
| Logits.ExampleKeep | rllm/src/logits.rs:85-92 | with top_p 0.7, two of those entries are kept |
| Logits.NucleusExample | rllm/src/logits.rs:84-92 | clamping 0.5, 0.3, 0.15, 0.05 at 0.7 yields 0.5, 0.3, 0, 0 |
| Logits.LogitsProcessor.SampleTopp | rllm/src/logits.rs:75-95 | after the in-place loop the array equals the nucleus of its old contents, and the result is the multinomial draw from it |
| Logits.LogitsProcessor.Sample | rllm/src/logits.rs:97-117 | without a temperature: the greedy index, counting near ties; with one: the counter is unchanged, and the draw is taken from the probabilities, clamped to the nucleus exactly when 0 < top_p < 1 |

## Left out

- Logits.LogitsProcessor.Sample: the probability vector is a parameter. Dividing the logits by the temperature and taking the softmax are tensor operations outside this model. The same logits vector is passed for the greedy branch.
- Logits.SampleMultinomial: the random generator and its fixed seed are not modelled. The uniform draw is the parameter `u`. The draw follows an inverse cumulative-distribution lookup on exact sums, so the generator's own rounding of the scaled draw is not captured.
- Logits.LogitsProcessor.SampleArgmax: `f32` values, NaN, infinities and signed zeros are not modelled. The scores are reals. Every zero top logit is modelled as "not a near tie". In `f32` that matches a top logit of +0.0, whose margin is NaN or +inf. A top logit of -0.0 above a negative runner-up gives a margin of -inf, which the source counts as a near tie and the model does not. It requires at least two logits; the source panics on fewer.
- Logits.LogitsProcessor.SampleTopp: the running sum is exact, not `f32`. The `partial_cmp(..).unwrap()` panic on NaN cannot arise with reals.
- Ranking.ArgsortDesc: the library's sort algorithm is replaced by an insertion sort with the same result, because a stable sort of distinct indices has a unique outcome.
- Logits.LogitsProcessor.constructor: the `SAMPLING_EPS` value lives in the configuration module, which is not part of this model. It is taken as 1e-5, and no proved property depends on its value. The tokenizer handle is left out because it only feeds logging.
- Debug and trace logging of the greedy step, and the `Debug` formatting of sequences, are left out; they have no effect on state.
- Seq.Sequence.GetGpuSlot: `usize` overflow of `block_index * block_size + offset` is not modelled, because integers are unbounded. It requires a nonzero block size and a position inside the allocated blocks; the source panics otherwise.
- Seq.BlockRef.Fork: reference counting and the block allocator (`blocks.rs`) are not part of this model. A handle is the block index it names.
- Seq.Sequence.GetGenLen: it requires the prompt to fit in the buffer. This invariant (`Valid`) holds from construction on; the source would underflow otherwise.
- Seq.SequenceGroup.OnlySeq: the panic on groups without exactly one member is a precondition.
- `SequenceGroup.arrival_time` is a clock reading and is left out. `BatchInfo` is a bundle of tensors and is left out. The serde derives of `SeqOutput` and `RequestOutput` are left out; both are plain datatypes here.
- `derivre.rs` and `semaphore.rs` are not part of this model.
