# Online Sinkhorn engine — a Dafny model

This project models the bookkeeping core of the `OT` class of the online
Sinkhorn solver (`online_sinkhorn/potentials.py`). The engine streams samples
of two distributions into fixed-capacity buffers. It keeps a cache of
pairwise squared distances between the absorbed samples. It maintains the two
dual log-potentials `p` (one per source sample) and `q` (one per target
sample), and optionally their running averages. From those it estimates the
entropic optimal-transport cost.

The model is purely functional. The engine's attributes form one immutable
`State` (`OTStore`). Each method is a function from a state to a
`Result<State>`. Each exception the method can raise becomes an `Err`.

The transcendental primitives are not evaluated. They are fields of a
`LogOps` record (`LogDomain`):
- `-logsumexp`, the Sinkhorn soft-min;
- `log`;
- `logaddexp`.

So every property holds whatever those functions compute. A log-potential is
an `ExtReal`: either `NegInf` (no mass yet, the source's `-inf`) or a finite
real.

Modules, in dependency order:
- `Outcomes`: `Option`, `Result` and the engine's failure modes.
- `LogDomain`: log-domain values and the uninterpreted primitives.
- `Distance`: `compute_distance`, with the sum of squared differences as its reference definition.
- `Blocks`: slice and block assignment on the pre-allocated buffers.
- `OTStore`: the state, its shape invariant, cache consistency, `is_full` and `__init__`.
- `Evaluation`: `evaluate_potential` and `compute_ot`.
- `Streaming` and `StreamingPotentials`: `partial_fit`, its buffers and cache, and its potentials.
- `Refitting`: `refit`, as written and corrected.
- `Restarts`: `reset`, and `random_fit` as written and corrected.
- `Driver`: `online_sinkhorn_loop`, with samplers and step schedules as parameters.

## Model

| member | source | states |
|---|---|---|
| Distance.ComputeDistance | online_sinkhorn/potentials.py:13-16 | the result is a \|x\| by \|y\| matrix whose (i, j) entry is the squared Euclidean distance between x_i and y_j, and is non-negative |
| Distance.ExpandedIsSqDiffSum | online_sinkhorn/potentials.py:16 | the expanded form \|a\|^2 + \|b\|^2 - 2<a, b> that the source evaluates equals the sum of squared coordinate differences, which is non-negative |
| Distance.ComputeDistanceTransposes | online_sinkhorn/potentials.py:13-16 | swapping the two point sets transposes the distance matrix |
| Distance.ComputeDistanceDiagonal | online_sinkhorn/potentials.py:13-16 | every point is at distance zero from itself |
| OTStore.Init | online_sinkhorn/potentials.py:38-55 | construction fails (NotImplementedError) exactly when no-memory and averaging are both requested; otherwise buffers have full capacity, cursors and counters are zero, the cache is zero and every potential and average is -inf |
| OTStore.IsFull | online_sinkhorn/potentials.py:65-67 | the engine is not full exactly when both buffers still have a free slot, so another source-target pair fits |
| OTStore.InitIsEmptyAndConsistent | online_sinkhorn/potentials.py:42-55 | a fresh engine has a consistent (empty) cache and is full exactly when its capacity is zero |
| OTStore.SwapKeepsCacheConsistent | online_sinkhorn/potentials.py:13-16 | cache consistency does not depend on which distribution is called the source |
| Evaluation.SourceDual | online_sinkhorn/potentials.py:249-254 | each query point gets the soft-min of the target potential against the absorbed target points; it gets zero when no target is absorbed |
| Evaluation.TargetDual | online_sinkhorn/potentials.py:257-262 | each query point gets the soft-min of the source potential against the absorbed source points, computed column-wise; it gets zero when no source is absorbed |
| Evaluation.TargetDualMirrorsSourceDual | online_sinkhorn/potentials.py:249-262 | the column-wise target evaluation equals the row-wise source evaluation with the two point sets exchanged |
| Evaluation.EvaluatePotential | online_sinkhorn/potentials.py:244-272 | fails (ValueError) exactly when neither side is given; otherwise returns `f` exactly when `x` is given and `g` exactly when `y` is given, entry by entry as the soft-min against the absorbed opposite side, reading the averages when averaging is on |
| Evaluation.EvaluateReadsOnlyAbsorbed | online_sinkhorn/potentials.py:244-264 | two engines that agree on the absorbed points and potentials evaluate identically, whatever their buffers hold past the cursors |
| Evaluation.EvaluateMirrors | online_sinkhorn/potentials.py:244-264 | evaluating `g` equals evaluating `f` on the engine with the two sides exchanged |
| Evaluation.ComputeOt | online_sinkhorn/potentials.py:229-242 | the estimate exists exactly when both sides have absorbed samples (otherwise a reduction runs over an empty axis) |
| Evaluation.DualObjectiveSymmetric | online_sinkhorn/potentials.py:238-242 | exchanging the potentials and transposing the distance block leaves the symmetrised objective unchanged |
| Evaluation.ComputeOtCacheMatchesRecompute | online_sinkhorn/potentials.py:234-237 | on a consistent cache, the no-memory path (recomputing distances) and the cached path give the same estimate |
| Evaluation.ComputeOtReadsOnlyAbsorbed | online_sinkhorn/potentials.py:229-242 | the estimate depends only on the absorbed prefixes of the potentials and on the valid block of the cache |
| Evaluation.ComputeOtSymmetric | online_sinkhorn/potentials.py:229-242 | the estimate does not depend on which distribution is called the source |
| Streaming.Clip | online_sinkhorn/potentials.py:100-104 | a batch is cut to its leading rows that fit the remaining capacity, and kept whole when it fits |
| Streaming.PartialFit | online_sinkhorn/potentials.py:96-193 | fails (ValueError) exactly when neither side is given; otherwise keeps the shape invariant, counts one update, and moves each cursor by the batch size, or to the capacity when the batch does not fit |
| Streaming.PartialFitFullness | online_sinkhorn/potentials.py:65-67 | after `partial_fit` the engine is full exactly when it was full before or a batch reached its buffer's capacity; a full engine stays full |
| Streaming.PartialFitAppendsSource | online_sinkhorn/potentials.py:100-106 | the clipped source batch is written at the old source cursor and every other source row is unchanged |
| Streaming.PartialFitAppendsTarget | online_sinkhorn/potentials.py:128-134 | the clipped target batch is written at the old target cursor and every other target row is unchanged |
| Streaming.PartialFitCacheFrame | online_sinkhorn/potentials.py:105-158 | only cache entries of newly valid pairs are written; the old valid block and everything outside the new one are unchanged |
| Streaming.PartialFitKeepsCacheConsistent | online_sinkhorn/potentials.py:105-158 | if every valid cache entry held its pair's distance before the call, the same holds over the grown rectangle after it |
| Streaming.PartialFitCountsWork | online_sinkhorn/potentials.py:105-158 | the computation counter grows by the area the valid rectangle gains plus the size of every soft-min block solved (all absorbed rows or columns under a full update) |
| StreamingPotentials.PartialFitStreamsSource | online_sinkhorn/potentials.py:159-167 | under the streaming update, old source entries are discounted by 1 - step (dropped at step 1), new ones get log(step) + f - log(n) with f the soft-min against the pre-call targets, and later entries are unchanged |
| StreamingPotentials.PartialFitStreamsTarget | online_sinkhorn/potentials.py:176-184 | the same for the target potential, with g against the pre-call sources |
| StreamingPotentials.PartialFitAveragesSource | online_sinkhorn/potentials.py:168-174 | with averaging, the source average over the new absorbed prefix is blended with the new potential (replaced at avg step 1) and left alone past it |
| StreamingPotentials.PartialFitAveragesTarget | online_sinkhorn/potentials.py:185-191 | the same for the target average |
| StreamingPotentials.PartialFitFullSource | online_sinkhorn/potentials.py:110-161 | under the full update on a consistent cache, every absorbed source entry, old and new, becomes its soft-min against the pre-call targets normalised by the new source count |
| StreamingPotentials.PartialFitFullTarget | online_sinkhorn/potentials.py:138-178 | the same for every absorbed target entry, normalised by the new target count |
| StreamingPotentials.PartialFitFullKeepsAverages | online_sinkhorn/potentials.py:159-178 | the full update never touches the running averages |
| StreamingPotentials.PartialFitSkipsEmptySides | online_sinkhorn/potentials.py:159-192 | a side that absorbs nothing (not given, or offered at a full buffer) keeps its potential and average |
| Refitting.RefitAsWritten | online_sinkhorn/potentials.py:195-227 | with an empty side it changes nothing; the blended `g` line fails to broadcast exactly when refitting `g` at step != 1 with a target buffer that is not full; on success only potentials and counters change |
| Refitting.Refit | online_sinkhorn/potentials.py:195-227 | the corrected refit never fails, changes only potentials and counters, counts x_cursor * y_cursor work per refitted side and one update, and leaves entries past the cursors alone |
| Refitting.RefitAsWrittenAgrees | online_sinkhorn/potentials.py:215-223 | at step 1, or when `g` is not refitted, the written refit is the corrected one |
| Refitting.RefitFIsSoftMin | online_sinkhorn/potentials.py:200-202 | on a consistent cache the fresh `f` of each absorbed source is its soft-min against the absorbed targets |
| Refitting.RefitGIsSoftMin | online_sinkhorn/potentials.py:208-210 | on a consistent cache the fresh `g` of each absorbed target is its soft-min against the absorbed sources |
| Refitting.RefitSource | online_sinkhorn/potentials.py:215-220 | refitting `f` relaxes each absorbed source entry towards its soft-min normalised by the source count, and keeps later entries |
| Refitting.RefitTarget | online_sinkhorn/potentials.py:221-226 | refitting `g` (corrected) relaxes each absorbed target entry towards its soft-min normalised by the target count, and keeps later entries |
| Refitting.RefitMirrors | online_sinkhorn/potentials.py:195-227 | the corrected refit of the exchanged engine, with the flags exchanged, is the exchange of the refitted engine |
| Refitting.RefitAsWrittenUsesSourceCount | online_sinkhorn/potentials.py:224-226 | with a full target buffer the written blended `g` line normalises by the source count where the corrected one uses the target count |
| Refitting.RefitAsWrittenMisnormalises | online_sinkhorn/potentials.py:225 | on a concrete one-by-two engine at half step the written and corrected target potentials differ |
| Restarts.Reset | online_sinkhorn/potentials.py:274-290 | for a capacity of at least one, fails exactly when a batch exceeds the capacity (capacity zero: see "Left out"); otherwise the cursors become the batch sizes, the update counter restarts, and the computation counter grows by xc*m + yc*n + n*m |
| Restarts.ResetOverwritesBuffers | online_sinkhorn/potentials.py:278-281 | the batches overwrite the buffers from the front and the rows past them are unchanged |
| Restarts.ResetEstablishesCacheConsistency | online_sinkhorn/potentials.py:276-282 | after a reset the cache is consistent, whatever it held before, and entries outside the new block are unchanged |
| Restarts.ResetPotentials | online_sinkhorn/potentials.py:275-284 | each new entry is the soft-min against the old (averaged) opposite side normalised by the new count; later entries are unchanged |
| Restarts.ResetRestartsAverages | online_sinkhorn/potentials.py:286-288 | with averaging the averages restart at the new potentials over the new prefix; otherwise they are untouched |
| Restarts.ResetUsesEvaluation | online_sinkhorn/potentials.py:275-284 | the new potential prefixes are the normalised result of `evaluate_potential` on the old engine |
| Restarts.PartialFitOnEmptyMatchesReset | online_sinkhorn/potentials.py:274-290 | on an empty engine, a full-update `partial_fit` and a `reset` with the same fitting batches build the same buffers, cache, potentials, cursors and work count |
| Restarts.StreamingFitOnEmptyMatchesReset | online_sinkhorn/potentials.py:159-184 | on an empty engine and with `log 1 = 0`, the default streaming `partial_fit` at step 1 writes the same potentials as a `reset` with the same fitting batches |
| Restarts.RandomFitAsWritten | online_sinkhorn/potentials.py:69-94 | the call as written; on success the shape invariant holds and the configuration is kept |
| Restarts.RandomFit | online_sinkhorn/potentials.py:69-94 | fails exactly when no side is given, a batch exceeds the capacity, or a side is solved against an empty opposite side; otherwise one update is counted, the cursors become the batch sizes, and the cache, averages and work counter are untouched |
| Restarts.RandomFitBuffers | online_sinkhorn/potentials.py:72-84 | each given batch overwrites its buffer from the front and the rest is unchanged; a side not given keeps its buffer and potential |
| Restarts.RandomFitPotentials | online_sinkhorn/potentials.py:76-93 | each new source entry is its soft-min against the old target side normalised by n; each new target entry is its soft-min against the source side as the source step left it, normalised by m |
| Restarts.RandomFitAsWrittenAgreesOnSource | online_sinkhorn/potentials.py:72-91 | given only source points, the written call is the corrected one |
| Restarts.RandomFitAsWrittenMisplacesTarget | online_sinkhorn/potentials.py:92-93 | whenever the written call succeeds with target points, the target batch has one point and the target potential lands at column x_cursor >= 1, leaving the absorbed target's entry stale; otherwise the result is the corrected one |
| Restarts.RandomFitAsWrittenWritesPastCursor | online_sinkhorn/potentials.py:92-93 | a concrete engine on which the written call succeeds, sets the target cursor to 1 and leaves the only absorbed target's potential at -inf |
| Restarts.RandomFitCacheIsStale | online_sinkhorn/potentials.py:69-94 | after any successful `random_fit`, with one or both batches, the cache is consistent exactly when the old cache already held the distances of the absorbed pairs: each given batch against the other side's new batch or kept points |
| Restarts.RandomFitBreaksCache | online_sinkhorn/potentials.py:69-94 | a consistent engine whose cache `random_fit` leaves inconsistent |
| Driver.OnlineSinkhornLoop | online_sinkhorn/potentials.py:292-313 | when every draw is a non-empty batch, the loop terminates with a full engine after at most as many rounds as the fuller buffer has free slots (none on a full engine); it counts one update per round, keeps earlier samples, and keeps a consistent cache consistent |
| Driver.RoundAdvances | online_sinkhorn/potentials.py:293-311 | one round on an engine that is not full advances both cursors, counts one update and keeps the cache consistent |
| Driver.EmptyDrawsStall | online_sinkhorn/potentials.py:100-106 | a round whose samplers return empty batches leaves a non-full engine non-full with its cursors unchanged, so the loop at lines 293-312 never ends |

## Left out

- Floating point: values are mathematical reals. Rounding, NaN and `+inf` are not modelled; `-inf` is modelled as `NegInf`.
- `logsumexp`, `log` and `logaddexp` are uninterpreted function values. Properties that depend on their numerics are not stated, except where a lemma lists the needed facts (for example `log 1 = 0`) as hypotheses.
- Exceptions: a method that raises part-way has already mutated some attributes in the source. The model returns `Err` and drops that half-updated state.
- The empty-axis reductions: a `logsumexp` over an empty opposite side is modelled as failing, because the maximum it takes over that axis has no value.
- `np.empty` buffers: their unspecified initial rows are modelled as the origin. They are never read before being written.
- `_callback` and `set_params` are not modelled. The callback is a hook with no effect on the state. `set_params` reassigns attributes.
- Step sizes are restricted to [0, 1], the range in which `log(1 - step)` is defined.
- The step-size and batch-size schedules (lines 294-307) use float powers and ceilings. The driver takes the resulting samplers and step sizes as functions of the update count instead.
- `random_sinkhorn_loop`, `sinkhorn_loop`, the module-level wrappers, the plotting code and the experiment scripts are not part of this model.
- The no-memory float path of `compute_ot` is modelled through `compute_distance`. Its agreement with the cached path is proved only for a consistent cache.
- Driver.OnlineSinkhornLoop: termination is proved only for samplers that always return non-empty batches. With `batch_size=0`, or a sampler that returns an empty batch, `partial_fit` absorbs nothing and the source loop runs forever; `Driver.EmptyDrawsStall` states that stall.
- Restarts.Reset: at capacity zero numpy broadcasts a one-point batch into the empty buffer slices, so the source call succeeds and leaves a cursor of 1 past the capacity. The model reports `BroadcastMismatch` for every non-empty batch at capacity zero, because a cursor past the capacity breaks the shape invariant that every other operation relies on.
- Restarts.RandomFitAsWritten: the error ordering follows the order of the statements. At capacity zero numpy broadcasts a one-point batch into the empty buffer slice, so the source call fails at its empty-axis reduction rather than at the buffer write; both are errors in the model too, only the error kind differs. Its success contract states only the shape invariant, because its content is given by `Restarts.RandomFitAsWrittenMisplacesTarget` and `Restarts.RandomFitAsWrittenAgreesOnSource`.
- Restarts.RandomFitCacheIsStale: consistency across `random_fit` is characterised, not claimed, because the call never updates the cache.

## Findings

| source | as written | input that shows it | evidently intended | confidence | as-written member | corrected member |
|---|---|---|---|---|---|---|
| online_sinkhorn/potentials.py:225 | the blended `g` line subtracts `log(x_cursor_)`, the source count | an engine with 1 absorbed source and 2 absorbed targets (capacity 2); `refit(refit_f=False, step_size=0.5)`, with `log 2 != 0` | subtract `log(y_cursor_)`, as the step-1 line 223 and the `f` branch do | not executed | Refitting.RefitAsWrittenMisnormalises | Refitting.Refit |
| online_sinkhorn/potentials.py:226 | `self.q_[:self.x_cursor_]` slices rows of the one-row `q_`, so it is the whole row; assigning it into `q_[:, :y_cursor_]` fails unless the target buffer is full | any engine with both cursors positive and `y_cursor_ < max_size`; `refit(refit_g=True, step_size=0.5)` | `self.q_[:, :self.y_cursor_]` | not executed | Refitting.RefitAsWritten | Refitting.Refit |
| online_sinkhorn/potentials.py:93 | `self.q_[:, self.x_cursor_] = g - np.log(m)` writes a single column at index `x_cursor_`; this fails past capacity and for any target batch other than one point | capacity 2, one absorbed pair; `random_fit` with one source and one target: `g` lands at column 1 while `y_cursor_` becomes 1 | `self.q_[:, :self.y_cursor_] = g - np.log(m)`, as line 91 stores `f` | not executed | Restarts.RandomFitAsWrittenMisplacesTarget | Restarts.RandomFit |
