# ARC prompt construction and the Emu3 image-token rule, in Dafny

This project models two small pieces of sequential logic from the
align-anything repository and proves properties of them.

1. **ARC prompt construction** (`align_anything/evaluation/benchmarks/ARC/ds_infer.py`).
   The ARC loader turns a multiple-choice question into a prompt string.
   - The choice block labels every choice by position. It uses `(A)`, `(B)`, ... when the first source label is `A`, and `(0)`, `(1)`, ... otherwise.
   - One question renders as: question text, instruction sentence, choice block, and an `Answer:` line.
   - A prompt puts a prefix of the few-shot pool, answered, before the unanswered target, separated by blank lines. The chat template's system, user and assistant slots frame the result.
   - Around this sit the task-name normalisation, the pairing of prompts with token ids, the rank lookup, and the choice of output file. The file name carries the process rank when a process group is initialised.
2. **Emu3 prefix-constrained token rule** (`align_anything/models/modeling_emu3/mllm/utils_emu3.py`).
   The helper remembers, for each batch entry, where the image-start token first occurs. It then measures the offset of the next token from that position and picks the allowed tokens by an ordered cascade.
   - End-of-line comes first, at multiples of `width + 1`.
   - End-of-frame, end-of-image and end-of-sequence come at the three offsets after the grid.
   - Padding comes after those.
   - Every other offset allows the visual tokens.

Modules:

- `Wrappers` (wrappers.dfy): `Option` and `Result`.
- `Strings` (strings.dfy): Python's `str.join`, `str.split` on one character, and the decimal rendering of an integer. It proves that split undoes join, and that decimal rendering round-trips and is injective.
- `ArcPrompt` (arc_prompt.dfy): choice labelling, the rendering of one question, few-shot selection, template framing, and `build_prompt`.
- `ArcPipeline` (arc_pipeline.dfy): task names, input pairing, rank, and output path.
- `Emu3Constraint` (emu3_constraint.dfy): the helper as an immutable value with a `map<int, int>` offset cache. One call is a pure function that returns the updated helper and the allowed tokens, or the error the Python code raises.

Behaviour of the loader worth knowing, all of it modelled:

- The few-shot slice `few_shot_data[:num_shot]` of a dataset split is a column batch, a mapping from column name to column values. Its length counts columns, never 0 for the ARC split, so any truthy shot count takes the few-shot branch. This holds even over an empty pool, where the prompt then equals the zero-shot one (`EmptyPoolColumnBatch`).
- In chain-of-thought mode with a truthy shot count, `build_prompt` iterates that column batch. The items are column names, and indexing a name by `'question'` raises TypeError (ds_infer.py:76). The model returns the error `CotOverColumnBatch` there, for every pool and every list of questions.
- So the assistant seed of every prompt `build_prompt` returns is the empty string. The step-by-step cue (ds_infer.py:56) is never used.
- An empty label list raises at `label[0]`; this is a precondition (`Renderable`). An empty list of choice texts with a label present renders as a single newline.

## Model

| member | source | states |
|---|---|---|
| ArcPrompt.ChoiceLines | align_anything/evaluation/benchmarks/ARC/ds_infer.py:128-142 | There is one line per choice text, in order. If the first source label is "A", line i is `"(" + chr(65+i) + ") " + text[i]`. Otherwise it is `"(" + decimal(i) + ") " + text[i]`. |
| ArcPrompt.RenderLines | align_anything/evaluation/benchmarks/ARC/ds_infer.py:130-141 | The lines rendered from a given start position: line i carries position start+i and text i. |
| ArcPrompt.GetChoices | align_anything/evaluation/benchmarks/ARC/ds_infer.py:128-143 | The block starts with a newline and is exactly "\n" when there are no texts. When no text contains a newline, splitting the rest of the block on newlines gives back exactly the choice lines. |
| ArcPrompt.ChoicesIgnoreLaterLabels | align_anything/evaluation/benchmarks/ARC/ds_infer.py:129-142 | Two choice sets with the same first label and the same texts render the same block, whatever their other labels are. |
| ArcPrompt.PositionLabelsDistinct | align_anything/evaluation/benchmarks/ARC/ds_infer.py:132-139 | In either convention, different positions get different labels. |
| ArcPrompt.BuildExamplePrompt | align_anything/evaluation/benchmarks/ARC/ds_infer.py:49-52 | The rendering reads back at fixed positions: question, instruction sentence, choice block, then "\n" and the answer line. The answer line is "Answer: " + key when answered, else exactly "Answer: ". |
| ArcPrompt.AnsweredExtendsUnanswered | align_anything/evaluation/benchmarks/ARC/ds_infer.py:51-52 | The answered rendering equals the unanswered rendering followed by the answer key. |
| ArcPrompt.PyPrefix | align_anything/evaluation/benchmarks/ARC/ds_infer.py:57 | The slice `[:n]` is a prefix of the pool. Its length is min(n, pool size) for n >= 0, and max(0, size+n) for negative n. |
| ArcPrompt.FewShotFragments | align_anything/evaluation/benchmarks/ARC/ds_infer.py:57-73 | There are as many fragments as rows in the slice `pool[:numShot]`, none for a falsy shot count. Fragment j is pool question j rendered with its answer, so the fragments follow pool order. |
| ArcPrompt.UnwrapWrap | align_anything/evaluation/benchmarks/ARC/ds_infer.py:86-96 | Framing by system text, user slot and assistant slot loses nothing: the user content can be read back from the prompt. |
| ArcPrompt.BuildPrompt | align_anything/evaluation/benchmarks/ARC/ds_infer.py:54-98 | The call raises exactly when chain-of-thought mode is on and the shot count is truthy. Otherwise there is one prompt per question, the i-th for the i-th question. Each is the system text, then the user slot, then the assistant slot around an empty seed. The user content is the exemplar fragments joined by blank lines, then a blank line and the unanswered target; with no fragments it is the target alone. |
| ArcPrompt.ZeroShotPrompts | align_anything/evaluation/benchmarks/ARC/ds_infer.py:57-65 | With a shot count of 0 in either mode, or an empty pool outside chain-of-thought mode, the call succeeds. The user content is then exactly the unanswered target and the seed is "". |
| ArcPrompt.FewShotUserContent | align_anything/evaluation/benchmarks/ARC/ds_infer.py:66-73 | Outside chain-of-thought mode, with a positive shot count, the user content is min(numShot, pool size) answered exemplars in pool order, joined by "\n\n", then "\n\n" and the target. The seed is "". |
| ArcPrompt.CotWithShotsRaises | align_anything/evaluation/benchmarks/ARC/ds_infer.py:74-78 | In chain-of-thought mode with a truthy shot count, the call raises for every pool, the empty one included, and every list of questions. |
| ArcPrompt.EmptyPoolColumnBatch | align_anything/evaluation/benchmarks/ARC/ds_infer.py:84-96 | With a non-zero shot count and an empty pool, outside chain-of-thought mode, the few-shot branch joins the lone target. The prompt equals the zero-shot prompt for that target. |
| ArcPrompt.ScenarioTargetRendering | align_anything/evaluation/benchmarks/ARC/ds_infer.py:49-52 | "Q?" with choices A/x and B/y renders as "Q?", the instruction, "\n(A) x\n(B) y", "\n" and "Answer: ". |
| ArcPrompt.ScenarioOneShot | align_anything/evaluation/benchmarks/ARC/ds_infer.py:79-96 | Shot count 1 over a pool of two gives one prompt. Its user content is the first exemplar answered, a blank line, then the rendered target. |
| ArcPipeline.GetTaskNames | align_anything/evaluation/benchmarks/ARC/ds_infer.py:36-41 | A task list is returned unchanged, and a single task becomes a one-element list. A name is in the result exactly when it is configured. |
| ArcPipeline.MakeInputs | align_anything/evaluation/benchmarks/ARC/ds_infer.py:105-108 | Prompts are paired with token ids in order, up to the shorter of the two lists. |
| ArcPipeline.InputsKeepPrompts | align_anything/evaluation/benchmarks/ARC/ds_infer.py:105-108 | With one id list per prompt, the texts of the inputs are exactly the prompts, in order. |
| ArcPipeline.GetRank | align_anything/evaluation/benchmarks/ARC/ds_infer.py:146-157 | The rank is the group rank when distributed support is available and initialised, and 0 otherwise. |
| ArcPipeline.OutputPath | align_anything/evaluation/benchmarks/ARC/ds_infer.py:116-122 | The path starts with `.cache/<task>/outputs` and ends with `.pkl`. Without an initialised group it is exactly `.cache/<task>/outputs.pkl`. |
| ArcPipeline.RankOfPath | align_anything/evaluation/benchmarks/ARC/ds_infer.py:120 | A path reads back as rank n only if it is exactly `.cache/<task>/outputs_` + decimal(n) + `.pkl`, with the digits spelled as an f-string prints them. |
| ArcPipeline.RankOfOutputPath | align_anything/evaluation/benchmarks/ARC/ds_infer.py:119-122 | Reading the rank back from the path gives the rank when a group is initialised. The unkeyed path carries no rank. With `RankOfPath`, this fixes the keyed name as `outputs_<rank>.pkl` for every rank. |
| ArcPipeline.DistinctRanksDistinctPaths | align_anything/evaluation/benchmarks/ARC/ds_infer.py:119-120 | Peers with different ranks in an initialised group write different files for the same task. |
| ArcPipeline.KeyedPathIsNotUnkeyed | align_anything/evaluation/benchmarks/ARC/ds_infer.py:119-122 | A rank-keyed path never equals the unkeyed path. |
| ArcPipeline.RankTwoPath | align_anything/evaluation/benchmarks/ARC/ds_infer.py:116-122 | Rank 2 in an initialised group writes `.cache/<task>/outputs_2.pkl`. Without a group the file is `.cache/<task>/outputs.pkl`. |
| Emu3Constraint.NewHelper | align_anything/models/modeling_emu3/mllm/utils_emu3.py:23-45 | The helper keeps every setting and starts with an empty offset cache. |
| Emu3Constraint.PyMod | align_anything/models/modeling_emu3/mllm/utils_emu3.py:53 | Python's `%`: the remainder has the divisor's sign and lies strictly inside it. It is zero exactly when the divisor divides the number. |
| Emu3Constraint.FirstIndexFrom | align_anything/models/modeling_emu3/mllm/utils_emu3.py:49 | The result is the first position holding the token, or None when no position does. |
| Emu3Constraint.Call | align_anything/models/modeling_emu3/mllm/utils_emu3.py:47-64 | The call fails with NoImageToken exactly when an uncached entry has no image-start token. It fails with ZeroModulus exactly when width is -1. On success, the cache gains only this batch id, and existing entries keep their values. A new entry stores the first image-start position. The allowed tokens are the cascade's choice at offset len(ids) minus the cached position. |
| Emu3Constraint.FirstCallOffsetPositive | align_anything/models/modeling_emu3/mllm/utils_emu3.py:48-52 | On the first call for a batch id the offset is at least 1. |
| Emu3Constraint.CachedPositionReused | align_anything/models/modeling_emu3/mllm/utils_emu3.py:48-52 | After a successful call, a later call for the same batch id always succeeds. It leaves the helper unchanged and measures from the stored position, whatever ids it is given. |
| Emu3Constraint.EndOfLineTakesPriority | align_anything/models/modeling_emu3/mllm/utils_emu3.py:53-54 | Every offset that is a multiple of width+1 gets end-of-line, including offsets past the padding threshold. |
| Emu3Constraint.EndMarkersAfterGrid | align_anything/models/modeling_emu3/mllm/utils_emu3.py:55-60 | With width >= 3, offsets (w+1)h+1, +2 and +3 give end-of-frame, end-of-image and end-of-sequence. |
| Emu3Constraint.NarrowRowsShadowEndMarkers | align_anything/models/modeling_emu3/mllm/utils_emu3.py:53-58 | Because the end-of-line test comes first, width 1 gives end-of-line where end-of-image would be, and width 2 gives end-of-line where end-of-sequence would be. |
| Emu3Constraint.AfterImage | align_anything/models/modeling_emu3/mllm/utils_emu3.py:53-62 | Beyond (w+1)h+3, only end-of-line and padding occur, with end-of-line exactly at the multiples of width+1. |
| Emu3Constraint.GridRow | align_anything/models/modeling_emu3/mllm/utils_emu3.py:53-64 | With width >= 1, for row k < height and 1 <= j <= width, offset k(w+1)+j is visual and offset (k+1)(w+1) is end-of-line. |
| Emu3Constraint.GridFollowsRows | align_anything/models/modeling_emu3/mllm/utils_emu3.py:53-64 | At every offset from 1 to (w+1)h, the cascade agrees with the reference rows: width visual tokens, then one end-of-line. |
| Emu3Constraint.CascadeFollowsLayout | align_anything/models/modeling_emu3/mllm/utils_emu3.py:53-64 | With width >= 3, the cascade at every offset from 1 to (w+1)h+3 agrees with a separately defined reference layout. The layout is height rows of width visual tokens and one end-of-line, then end-of-frame, end-of-image and end-of-sequence. |

## Left out

- `main`, argument parsing and config merging (ds_infer.py:160-179) are command-line plumbing and are not modelled. The model does not forbid chain-of-thought mode the way the assertion at line 176 does. Instead, `BuildPrompt` returns the TypeError that mode raises with a truthy shot count.
- The chain-of-thought exemplar format `question + "\n'Answer: '" + answer` (ds_infer.py:76) and the assistant seed `" Let's think step by step. "` (ds_infer.py:56, 89) are not modelled. For this loader both lie behind the TypeError at ds_infer.py:76 and are never produced.
- `load_dataset` (ds_infer.py:100-109) is not modelled. Dataset loading and tokenisation are external. The few-shot pool and the questions are parameters, and only the pairing of prompts with token ids is modelled (`MakeInputs`).
- `get_answer` and `set_fewshot_dataset` are field reads. They appear as `answerKey` and as the pool parameter.
- In `save_data`, the directory creation, the call to the generation backend and the pickle write are I/O and are not modelled. Only the choice of path is modelled.
- `torch.distributed` state is passed in as an `ExecContext` value instead of being read from the process.
- `get_template_class` and `str.format` are not modelled. The template registry is external, so a template is three parts: a system text, and user and assistant slots, each a prefix and a suffix around its argument. Other braces in a format string are not modelled.
- The column batch is modelled by its rows (`Exemplars`), together with the two facts the loader depends on: its length is never 0 for a truthy shot count, and iterating it yields column names.
- ArcPrompt.GetChoices: in the alphabetic convention it renders at most 0xD800 - 65 choices. A Dafny `char` cannot be a surrogate code point, while Python's `chr` can.
- Emu3Constraint.Call: on the ZeroModulus error the source has already stored the new position in the cache before raising. The model returns the error without the updated helper.
- Tensors are modelled as integer sequences, and the 0-d position tensor as an `int`. The tuple or list that `__call__` returns is modelled as a sequence of token ids.
