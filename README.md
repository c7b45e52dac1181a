# Resumable table conversion with a retrying LLM executor

This project models the batch-conversion core of `tools/datasets/convert_datasets.py`.
The tool turns clinical-trial tables into prompts, sends one chat-completion request per
row, and stores the answers so that an interrupted run can resume.

For one table, `convert_table` keeps five parallel streams: `linearization`, `input`, `raw`,
`processed` and `back_input`. A run does four things:

1. It linearises every row: the columns whose name occurs in the prompt, written as
   `name: value` and joined with `"; "`. This is skipped when one linearisation per row is
   already cached.
2. It materialises one request per linearisation: the `chat_kwargs` template with its last
   message replaced by the rendered prompt. This is skipped when one request per row is
   already cached.
3. `check_llm_results` pads the three result streams with nulls and lists the pending
   indices.
4. The pending requests go through the generator `get_llm_results`, and each yielded
   (request, response-or-null) pair is written into its slot.

The generator has three reactions to an error:

- On a context-length error it upgrades `gpt-3.5-turbo` to `gpt-3.5-turbo-16k`.
- On any other exception it backs off linearly, waiting `try_num * 60` seconds.
- On any other bad-request error it re-raises.

On a context-length error with any model other than `gpt-3.5-turbo` (in practice the
`-16k` model it has just upgraded to) it yields `(request, None)`. It does not move on after
that, so it yields the same pair again on the next resumption.

Modules:

- `Requests`: messages, requests and responses, and replacing the last message's content.
- `Linearize`: the column filter (Python's substring test) and row linearisation. This part
  is pure.
- `Pending`: padding and the pending-index loop. The loop is proved equal to the pure
  `PendingIndices`.
- `Executor`: the retry state machine. It is a pure specification (`Serve`, `Pull`, `Drive`)
  over a finite sequence of service outcomes, plus the imperative generator `CallStream`,
  whose `Next` is proved against `Pull`.
- `Store`: the class `LlmResults` holding the five streams, with the materialisation loop,
  the slot-stable write loop and the driver `ConvertTable`.
- `Datasets`: the fixed table-name orders of `convert_ctod` and `convert_hint`.

The model keeps the behaviour as written, including three behaviours that are probably
not intended:

- **Unbound prompt.** When linearisations are cached but requests are not, the prompt is
  never read. Line 141 then raises `UnboundLocalError` on the first row. The model returns
  `PromptUnbound` and changes nothing.
- **Repeated skip pair.** The skip path has no `break`. Every request starts on
  `gpt-3.5-turbo`; under repeated context-length errors the first error upgrades it, and from
  then on the generator yields the same `(upgraded request, None)` pair again and again.
  `zip` files that pair under every following pending index (`SkipFillsEverySlot`).
- **Stale `processed`.** A null response leaves `processed[ind]` stale. Because a null `raw`
  entry is always pending, the slot is re-queued on every run; null is not a terminal value.

## Model

| member | source | states |
|---|---|---|
| Requests.WithLastContent | tools/datasets/convert_datasets.py:141-143 | replacing the last message's content keeps the model, the temperature, the number of messages, every earlier message and the last role; the new last content is the given text |
| Requests.WithLastContentTwice | tools/datasets/convert_datasets.py:140-144 | overwriting the template's last content in place on every iteration leaves no trace of earlier iterations: two overwrites equal the last one |
| Requests.Materialise | tools/datasets/convert_datasets.py:140-144 | materialising gives exactly one request per linearisation |
| Requests.MaterialiseShape | tools/datasets/convert_datasets.py:140-144 | materialising gives one request per linearisation, in order; each agrees with `chat_kwargs` in model, temperature, length and all but the last message, and its last content is the prompt rendered with that linearisation |
| Linearize.ContainsOccurs | tools/datasets/convert_datasets.py:128 | the left-to-right substring test `c in prompt` holds iff the column name occurs at some position of the prompt |
| Linearize.KeptColumnsFrom | tools/datasets/convert_datasets.py:128 | the kept column indices from `k` on are in bounds, strictly increasing, and contain a column iff its name is a substring of the prompt |
| Linearize.KeptColumns | tools/datasets/convert_datasets.py:128-129 | the column filter keeps exactly the columns whose name occurs in the prompt, in table order |
| Linearize.LinearizeRow | tools/datasets/convert_datasets.py:132 | the linearisation of a row is empty exactly when no column name occurs in the prompt |
| Linearize.LinearizeRows | tools/datasets/convert_datasets.py:131-134 | exactly one linearisation per row, in row order, each the `"; "`-join of `name: value` over the kept columns |
| Linearize.KeptExample | tools/datasets/convert_datasets.py:127-129 | with prompt `"phase, drug"` both columns `phase` and `drug` are kept, in table order |
| Linearize.RowExample | tools/datasets/convert_datasets.py:131-134 | such a row becomes the field `phase: <v>` and the field `drug: <w>` joined by `"; "` |
| Linearize.LinearizeExample | tools/datasets/convert_datasets.py:126-135 | a two-row table becomes two strings in row order, each `phase: <v>` and `drug: <w>` joined by `"; "`, for any cell values |
| Pending.Pad | tools/datasets/convert_datasets.py:73-77 | the padded stream has length `max(len, n)`, keeps every existing entry (never truncates) and has only nulls in the appended slots |
| Pending.IsPending | tools/datasets/convert_datasets.py:81-85 | an index that is not pending has a non-null response, a non-null content and a recorded request whose last content equals the current request's |
| Pending.PendingBelow | tools/datasets/convert_datasets.py:79-88 | the pending indices below `n` are strictly increasing, below `n`, and contain `i` iff a result slot of `i` is null or the recorded request's last content differs from the current one |
| Pending.PendingIndices | tools/datasets/convert_datasets.py:79-88 | the returned indices are strictly increasing, in range, and contain `i` iff `i` is pending |
| Pending.NothingPending | tools/datasets/convert_datasets.py:79-88 | the pending list is empty iff no index is pending |
| Pending.CollectPending | tools/datasets/convert_datasets.py:79-88 | the index loop returns exactly the pending indices |
| Pending.PaddedSlotsPending | tools/datasets/convert_datasets.py:72-86 | after padding every stream covers every request, and every slot that padding added to any of `raw`, `processed` or `back_input` is pending |
| Pending.NullResultStaysPending | tools/datasets/convert_datasets.py:82 | a null raw result makes its index pending, whatever the other slots hold |
| Pending.DriftRequeues | tools/datasets/convert_datasets.py:82-85 | with all three slots filled, an index is pending iff the recorded request's last content differs from the current request's |
| Pending.ResolvedAfterWrite | tools/datasets/convert_datasets.py:82-85 | writing a response with non-null content and a request with the current last content resolves the index |
| Executor.Serve | tools/datasets/convert_datasets.py:94-112 | the retry loop for one request consumes at most the outcomes available (its other guarantees are `ServeFacts`) |
| Executor.ServeFacts | tools/datasets/convert_datasets.py:94-112 | every attempt consumes an outcome; the messages and temperature never change, and the model changes only from the smaller to the larger one; the generator moves on iff a response arrived; it yields the request as last sent; it never exhausts inside the loop; it sleeps once per increment of `try_num` |
| Executor.TransientStep | tools/datasets/convert_datasets.py:109-112 | one transient failure records a delay of `(try_num+1)*60` seconds, consumes one outcome and retries the same request with the counter raised by one |
| Executor.TransientBackoff | tools/datasets/convert_datasets.py:109-112 | `k` transient failures raise `try_num` by `k` and record the delays `(try_num+1)*60, …, (try_num+k)*60`; the request is then served as from the raised counter |
| Executor.KthFailureWaits | tools/datasets/convert_datasets.py:110-112 | the k-th consecutive transient failure of a request waits `60*k` seconds, with no cap |
| Executor.UpgradeRetries | tools/datasets/convert_datasets.py:100-103 | a context-length error on `gpt-3.5-turbo` switches to `gpt-3.5-turbo-16k` and retries with the same `try_num` and no delay |
| Executor.SkipDoesNotAdvance | tools/datasets/convert_datasets.py:104-106 | a context-length error on any other model yields `(request, None)` without moving on |
| Executor.OtherBadRequestRaises | tools/datasets/convert_datasets.py:107-108 | any other bad-request code escapes the generator |
| Executor.Pull | tools/datasets/convert_datasets.py:93-112 | one resumption of the generator consumes at most the outcomes available (its behaviour is stated by the lemmas on `Drive` and by `CallStream.Next`) |
| Executor.Drive | tools/datasets/convert_datasets.py:150-152 | `zip` draws at most `len(inds)` pairs and consumes at most the outcomes available |
| Executor.DriveAligned | tools/datasets/convert_datasets.py:93-98 | while no response is null, the j-th pair carries the messages of the j-th pending request, even after a model upgrade |
| Executor.DriveRepeatsSkip | tools/datasets/convert_datasets.py:100-106 | under repeated context-length errors, a request on `gpt-3.5-turbo` is upgraded once (one extra outcome), and then every pull yields the same `(upgraded request, None)`; a request on any other model is yielded unchanged every time; the run is not stopped |
| Executor.RepeatSkip | tools/datasets/convert_datasets.py:104-106 | once the current request is off `gpt-3.5-turbo`, each context-length error is one pull yielding that same request with `None` |
| Executor.DriveCompletes | tools/datasets/convert_datasets.py:150-152 | a run that no event stopped drew one pair per pending index |
| Executor.CallStream.constructor | tools/datasets/convert_datasets.py:91-94 | a fresh generator starts at the first request with `try_num == 0` and nothing consumed or slept |
| Executor.CallStream.Attempt | tools/datasets/convert_datasets.py:95-112 | one attempt consumes one outcome and continues or ends the retry loop exactly as `Serve` says |
| Executor.CallStream.Next | tools/datasets/convert_datasets.py:91-112 | one `next()` produces the event, new generator state, delays and consumption given by `Pull` |
| Store.LlmResults.constructor | tools/datasets/convert_datasets.py:122 | the five loaded streams are stored as given |
| Store.LlmResults.CheckLlmResults | tools/datasets/convert_datasets.py:69-88 | pads the three result streams to the number of requests and returns the pending indices; linearisations and requests are unchanged |
| Store.LlmResults.AppendInputs | tools/datasets/convert_datasets.py:139-146 | appends, not replaces, one materialised request per linearisation; nothing else changes |
| Store.MaterialiseOnto | tools/datasets/convert_datasets.py:140-144 | the loop that overwrites the template in place and appends a copy yields the existing requests followed by the materialised ones |
| Store.Pick | tools/datasets/convert_datasets.py:151 | the generator receives the request of every pending index, one per index, in index order |
| Store.LlmResults.WriteSlot | tools/datasets/convert_datasets.py:153-156 | one pair overwrites slot `ind` of `raw` and `back_input`, and of `processed` only for a non-null response |
| Store.LlmResults.WriteNext | tools/datasets/convert_datasets.py:150-160 | one loop iteration pulls once and, on a pair, extends the written prefix by it; otherwise the run has stopped exactly where `Drive` says and no slot changes |
| Store.LlmResults.WriteResults | tools/datasets/convert_datasets.py:149-160 | the write loop draws exactly the pairs `Drive` gives for `len(inds)` pulls; the j-th pair lands in slot `inds[j]`; every other slot and every length is unchanged |
| Store.LlmResults.Prepare | tools/datasets/convert_datasets.py:124-146 | fails exactly when linearisations are cached, requests are not, and there is a row, changing nothing; otherwise linearises unless cached and appends the materialised requests unless cached |
| Store.LlmResults.Resume | tools/datasets/convert_datasets.py:148-160 | computes the pending indices of the padded streams and writes back the pairs of the run; with nothing pending no call is made; while no response is null, each answered slot with non-null content is resolved; after a run that no event stopped and whose responses and contents are all non-null, nothing is pending |
| Store.LlmResults.ResumeTwice | tools/datasets/convert_datasets.py:148-160 | resuming is idempotent: after a run that no event stopped and whose responses and contents are all non-null, running again makes no call |
| Store.LlmResults.ConvertTable | tools/datasets/convert_datasets.py:115-160 | the whole per-table run: the unbound-prompt failure iff cached linearisations, uncached requests and a non-empty table; otherwise the linearisations, requests, pending indices, written slots, delays and stop event |
| Store.ResolvedAfterRun | tools/datasets/convert_datasets.py:149-156 | once pairs are aligned with their slots, every slot written with a non-null content is no longer pending |
| Store.NullRequeuedAfterRun | tools/datasets/convert_datasets.py:153-156 | every slot written with a null response is pending again and keeps its old `processed` |
| Store.NothingPendingAfterRun | tools/datasets/convert_datasets.py:79-88 | once every pending slot was written with an aligned pair whose response and content are non-null, no index is pending |
| Store.SkipFillsEverySlot | tools/datasets/convert_datasets.py:150-156 | under repeated context-length errors, every pending slot receives the first pending request, upgraded to `gpt-3.5-turbo-16k` if it was on `gpt-3.5-turbo`, with a null response, and keeps its old `processed` |
| Datasets.TableNames | tools/datasets/convert_datasets.py:164-167 | the nested loops visit `len(phases) * len(splits)` tables |
| Datasets.TableNameAt | tools/datasets/convert_datasets.py:164-167 | the `(i * len(splits) + j)`-th table is `phase_<phases[i]>_<splits[j]>`: phase-major, split-minor |
| Datasets.CtodTables | tools/datasets/convert_datasets.py:163-172 | `convert_ctod` converts six tables |
| Datasets.CtodOrder | tools/datasets/convert_datasets.py:163-172 | `convert_ctod` converts phase I, III, II tables, valid before train |
| Datasets.HintTables | tools/datasets/convert_datasets.py:175-184 | `convert_hint` converts nine tables |
| Datasets.HintOrder | tools/datasets/convert_datasets.py:175-184 | `convert_hint` converts phase I, II, III tables, train, valid, test |

## Left out

- The OpenAI client and its credentials (`load_client`, and the call at line 97) are
  replaced by a finite sequence of call outcomes. A response is modelled only by
  `choices[0].message.content`.
- When the outcome sequence runs out, the generator stops with the extra event `Starved`.
  This is an artefact of the model; the real service never runs out.
- Persistence (`load_llm_results`, `save_llm_results`, `os.makedirs`) is not modelled. The
  loaded streams are the constructor's arguments, and each save is the in-memory write it
  follows. An interruption between two saves is therefore not modelled.
- Reading the CSV with pandas is replaced by a `Table` of cell strings; `str()` formatting
  of cell values is not modelled.
- `string.Template.safe_substitute` is the uninterpreted parameter `render(prompt, linearisation)`.
- `sleep` is recorded as a delay in seconds instead of waiting. `tqdm`, `print` and the
  `position` argument are left out.
- `main`, `argparse`, the prompt texts and the other dataset converters are left out.
  `convert_ctod` and `convert_hint` are modelled only by the order of the tables they
  convert.
- The model uses value semantics for requests. In the source, the upgrade at line 102
  mutates the request object that `llm_results["input"][ind]` shares with the generator.
  The model leaves `input` unchanged. This is not observable, because `input` is not saved
  after line 146, and the pending check compares only message contents.
- Executor.Serve: its own contract only bounds the outcomes consumed; what it guarantees
  is stated by `ServeFacts` and the lemmas after it.
- Executor.Pull: its own contract only bounds the outcomes consumed; its behaviour is
  stated through `Drive` and `CallStream.Next`.
- Executor.Drive: its own contract only bounds the pairs and outcomes; its behaviour is
  stated by `DriveAligned`, `DriveRepeatsSkip`, `DriveCompletes` and `WriteResults`.
- Requests.Materialise: its own contract only gives the count; the contents are stated by
  `MaterialiseShape`.
- Datasets.CtodTables: its own contract only gives the count; the order is stated by
  `CtodOrder`.
- Datasets.HintTables: its own contract only gives the count; the order is stated by
  `HintOrder`.
- Datasets.TableNames: its own contract only gives the length; its contents are stated by
  `TableNameAt`.
- A null result is re-queued on every run, not terminal (line 82), and a null response
  leaves `processed` unchanged (lines 154-155).
