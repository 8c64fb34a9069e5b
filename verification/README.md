# Verified model of TuFT's training, recovery and sampling bookkeeping

TuFT serves LoRA fine-tuning to many tenants over one base model. This project models the
bookkeeping around its GPU code and proves properties of it with Dafny 4.11:

- **Training** (`LossInputs`, `Sharding`, `TrainingRows`, `FsdpEngine`, `FsdpTraining`, `PlainTraining`, `HfTraining`,
  `PartialGradients`, `Metrics`): batching of client fields, contiguous sharding, the micro-batch size that keeps
  ranks in lock-step, flat-roll labels, sum-gradient accumulation with world-size compensation, metric merging. The
  neural network is an uninterpreted real function of temperature, padded row, mask, position and label; one gradient
  coordinate is another such function. The main result is that the split, padded, rank-parallel computation leaves the
  loss, gradient and outputs of the plain full batch, and exactly which rows that holds for.
- **Adapter slots** (`SlotNames`, `SlotWorker`, `SlotRuns`, `SlotBackend`): the preallocated slot pool, replicated on every rank.
  Names are strings split at dots, and `.name.` matching is the substring test of the source. The main results are that
  every operation on a slot touches that slot only, that over whole runs a slot depends on its own operations only, that a slot handed out is fresh, that a checkpoint loads into any
  slot, and that slots are conserved over every run of creations and removals.
- **Ordering** (`SequenceExecutor`, `TrainingRuns`): asyncio protocols as atomic steps between awaits, with invariants
  over every interleaving, timeouts and crashes included. The pending queue is a concrete binary heap.
- **Persistence and recovery** (`FileRedis`, `StoreKeys`, `CheckpointCommit`, `Futures`, `Recovery`): the file-backed store against an
  abstract log of writes and purges, crash points inside its dump, the commit of a run with its checkpoint through that
  store, and the fate of every future after a restart, restarts interrupted at any moment, any number of times, included.
- **Wire and sampling** (`WireCodec`, `TopKCodec`, `PromptLogprobs`, `DataParallel`): the ragged-tensor encoding and
  its inverse, top-k matrices, chunked prompt log-probabilities in both vLLM forms, and data-parallel replicas.

Objects whose methods update fields are classes here; loops are loops, proved against specification functions whose
properties are stated as lemmas. `dafny verify dfyconfig.toml` checks everything. Numbers are mathematical integers and
reals: rounding and integer widths play no part in what is claimed, except that stored tensor elements are bit patterns
of their declared width.

## Where the code differs from what is said about it

- `_canonical_lora_key` is documented to return canonical keys unchanged. It does not when the two components before the
  last are both LoRA halves (`x.lora_A.lora_B.weight` becomes `x.lora_A.weight`): `SlotNames.CanonicalIdempotentExactlyUnlessDoubled`.
- The engine validates a request ahead of its first backward call, so that a malformed row should leave no partial
  gradient. That covers generic client fields; a row's own tokens and `target_tokens` are checked only when its
  micro-batch is prepared: `PartialGradients.FailureIsCleanExactlyWhenWeightsCancel` says exactly when nothing is left,
  `PartialGradients.RowLocalFailureIsCleanExactlyWhenRowWeightsCancel` for networks that see only their own row.
- A request is said to be split into ceil(length / size) micro-batches. The FSDP backend splits it only when the size
  divides the batch or every shard, and otherwise runs one micro-batch: `Sharding.ActorMicroSize`,
  `Sharding.EffectiveMicroSize`, `FsdpTraining.AloneMicroSize`. `Sharding.ShardsSplitAsDocumentedExactly` and
  `FsdpTraining.AloneSplitsAsDocumentedExactly` say exactly when the two agree.
- The flat-roll fallback is documented as harmless because the final label's weight is zeroed. It is zeroed only when
  the row omits its weights too: `TrainingRows.ContextFreeExactlyWhenSettled` gives the exact condition, and
  `TrainingRows.OutputContextFreeExactlyWithTargets` says when the returned log-probabilities are affected.
- `FileRedis` promises the value, or nothing once it has expired. An expiry instant of exactly 0.0 is falsy and never
  passes, and a purge is not undone when the clock is set back: `FileRedis.ServedAsSpecifiedExactly`.
- `DPSamplingBackend.add_adapter` rolls back so that the replicas stay consistent. Re-adding an id that is already
  registered, with a partial failure, removes the earlier entry on some replicas only: `DataParallel.RollbackAgreesExactly`,
  `DataParallel.AgreesForAllAnswersExactly`.
- Decoding loses the leading dimension of a tensor whose trailing dimensions multiply to zero:
  `WireCodec.RoundTripExactlyWhenDetermined`. Top-k pairs beyond the length of the first present entry are dropped, all of
  them if that entry is empty: `TopKCodec.LosslessExactlyWhenFirstIsLongest`.
- `HFTrainingModel` divides by an explicit temperature of zero where the FSDP engine ignores it: `HfTraining.TemperaturesAgree`.
- Tasks are said to be executed in ascending order of their ids. The processor catches `Exception` only: a function that
  raises `asyncio.CancelledError` ends it with `_processing` still true, and everything queued then or later waits for its
  timeout: `SequenceExecutor.AllExecutedExactlyUnlessBroken`; `SequenceExecutor.Executor.Drain` says when this does not happen.
- Recovery does not settle every pending future: those at or below the restored checkpoint's id stay pending:
  `Recovery.PendingExactly`.
- A restore that fails for good marks its run corrupted in the store before any of the run's futures is settled, and
  still fails only the futures after the checkpoint. The next start no longer restores the run: it fails what was left
  pending, and spares finished futures the first start had not reached: `Recovery.RestartSettlesAlikeExactly`,
  `Recovery.RestartsSettleAlikeExactly`.
- A commit is to leave the old checkpoints or the old ones and the new. `build_key` writes `__SEP__` for `::`, so a name
  holding either can have the key of another name (`a::b` and `a__SEP__b`), whose record the commit then replaces and a
  deletion removes. Client names are not checked (src/tuft/server.py:428-434). `StoreKeys.SharesKeyExactly` says which
  names are concerned and `CheckpointCommit.StepOnDisk` exactly when a step does as documented; automatic names always do.

## Model

| member | source | states |
|---|---|---|
| `LossInputs.ClientKeys` | src/tuft/backends/loss_inputs.py:25-33 | the keys are exactly those some row mentions, each once |
| `LossInputs.CheckField` | src/tuft/backends/loss_inputs.py:67-83 | succeeds exactly when every row has the field with one rank and one dtype; a missing field is reported exactly when some row lacks it |
| `LossInputs.ValidateClientInputs` | src/tuft/backends/loss_inputs.py:36-85 | an empty request validates; any other exactly when every required key is mentioned and every mentioned, non-ignored key is uniform over all rows; the keys returned are the mentioned ones |
| `LossInputs.PadOne` | src/tuft/backends/loss_inputs.py:123-127 | the pad list, built from the last dimension backwards, keeps every element at its own index and puts zero everywhere else |
| `LossInputs.BatchLossFnInput` | src/tuft/backends/loss_inputs.py:88-128 | fails exactly when the rows disagree; otherwise every row is zero-padded to the largest extent of each dimension, for any rank |
| `LossInputs.TrimUndoesPadding` | src/tuft/backends/fsdp_engine.py:372-374 | cutting a padded row back to its own shape returns the row unchanged |
| `LossInputs.UniformOnSlices` | src/tuft/backends/loss_inputs.py:102-114 | what is uniform over the request is uniform over every slice, so no micro-batch of a valid request fails to batch |
| `LossInputs.MentionedOnSlices` | src/tuft/backends/fsdp_engine.py:311-321 | a shard never has a key the request lacks, so passing the request's keys never trips the unexpected-field check |
| `LossInputs.ValidExactlyWhenEverySliceBatches` | src/tuft/backends/loss_inputs.py:36-128 | a non-empty request validates if and only if every field of it batches on every non-empty contiguous slice |
| `Sharding.ShardList` | src/tuft/backends/fsdp_training_backend.py:100-113 | a non-positive count is refused; otherwise the shards in order make up the list, differ in length by at most one, longer ones first, and none is empty when there is an element for each |
| `Sharding.Micros` | src/tuft/backends/fsdp_engine.py:327-328 | range slicing yields non-empty slices no longer than the size |
| `Sharding.MicrosCover` | src/tuft/backends/fsdp_engine.py:327-328 | the slices in order make up the batch |
| `Sharding.MicrosDivide` | src/tuft/backends/fsdp_engine.py:327-328 | when the size divides the batch every slice is full and there are exactly length / size of them |
| `Sharding.ActorMicroSize` | src/tuft/backends/fsdp_training_backend.py:1006-1011 | the size an actor uses is positive and divides its shard; it is the configured size exactly when that divides, and the whole shard otherwise |
| `Sharding.EffectiveMicroSize` | src/tuft/backends/fsdp_training_backend.py:1468-1479 | the size is kept exactly when it divides every shard and gives every shard one and the same count |
| `Sharding.RanksInLockStep` | src/tuft/backends/fsdp_training_backend.py:1468-1479 | every rank runs the same positive number of micro-batches, and that number is what its slicing yields |
| `Sharding.DivisibilityForcesEqualShards` | src/tuft/backends/fsdp_training_backend.py:1473-1477 | for a size of two or more, dividing every shard of an even split already makes the shards equal |
| `Sharding.SizeOneNeedsEqualShards` | src/tuft/backends/fsdp_training_backend.py:1473-1477 | for size one the count check is what matters: it holds exactly when the ranks divide the batch |
| `Sharding.MicrosCount` | src/tuft/backends/fsdp_engine.py:327-328 | range slicing makes ceil(length / size) slices, whatever the two |
| `Sharding.CountIsCeilingExactly` | src/tuft/backends/fsdp_training_backend.py:1425-1429 | one micro-batch per full slice, or one for the whole, is ceil(length / size) if and only if the size divides the length or is no smaller |
| `Sharding.ShardsSplitAsDocumentedExactly` | src/tuft/backends/fsdp_training_backend.py:1405-1411 | every rank runs the documented ceil(shard / size) micro-batches if and only if the batch is a multiple of ranks times size or no larger than that |
| `TrainingRows.DocumentedRowsAreSettled` | src/tuft/backends/fsdp_engine.py:115-118 | rows of the documented kinds (explicit targets, or no weights; weights no longer than the row) are settled |
| `TrainingRows.SettledRowDot` | src/tuft/backends/fsdp_engine.py:245-265 | a settled row contributes the same amount however far it is padded and whatever row follows it in the flat roll |
| `TrainingRows.ContextFreeExactlyWhenSettled` | src/tuft/backends/fsdp_engine.py:115-134 | a row contributes the same amount in every batch, under every row-local network, if and only if it is settled: no weight on a rolled final label, none past its end |
| `TrainingRows.MicroDotIsBatchTerm` | src/tuft/loss_fn/cross_entropy.py:25 | for settled rows the weighted sum over the padded matrices is a fixed sum of one term per row |
| `TrainingRows.RowOutputIsOwn` | src/tuft/backends/fsdp_engine.py:372-374 | a row with explicit targets gets back its own log-probabilities, whatever the batch |
| `TrainingRows.OutputContextFreeExactlyWithTargets` | src/tuft/backends/fsdp_engine.py:119-133 | returned log-probabilities never depend on the batch if and only if the row brings its targets |
| `FsdpEngine.RolledSlice` | src/tuft/backends/fsdp_engine.py:119-133 | a row's slice of the flat roll is its tokens shifted by one, ending in the next row's first token, the first row's at the end |
| `FsdpEngine.PrepareMicroBatch` | src/tuft/backends/fsdp_engine.py:95-142 | succeeds exactly for a non-empty batch of non-empty rows whose targets, if given, are as long as the row; the result is row by row the padded tokens, length mask and labels; an empty batch and an empty row have their own errors |
| `FsdpEngine.CopyRow` | src/tuft/backends/fsdp_engine.py:173-176 | overwrites as much of one row as both sides hold and no other cell |
| `FsdpEngine.PrepareWeights` | src/tuft/backends/fsdp_engine.py:245-265 | each row is its explicit weights cut or zero-filled to the width, or ones with a zero on a rolled final label |
| `FsdpEngine.BatchClientFields` | src/tuft/backends/fsdp_engine.py:202-206 | succeeds exactly when every generic field is uniform over the micro-batch, and covers exactly those fields |
| `FsdpEngine.MatrixDotIsMicroDot` | src/tuft/loss_fn/cross_entropy.py:25 | the matrix product of scored labels and prepared weights is the sum of the rows' own weighted sums |
| `FsdpEngine.CrossEntropy` | src/tuft/loss_fn/cross_entropy.py:8-26 | the loss is minus the weighted log-probabilities of the micro-batch's rows |
| `FsdpEngine.TrimRows` | src/tuft/backends/fsdp_engine.py:372-374 | one output per row, each cut to the row's own length |
| `FsdpEngine.ScoreMicroBatch` | src/tuft/backends/fsdp_engine.py:327-358 | succeeds exactly when the rows are well-formed and the generic fields batch, and then yields the loss, its slope and the outputs the micro-batch means |
| `FsdpEngine.RunMicroBatches` | src/tuft/backends/fsdp_engine.py:322-379 | backward is called once per well-formed micro-batch before the first malformed one, in order and with the world size, and never in a forward-only call |
| `FsdpEngine.ForwardBackward` | src/tuft/backends/fsdp_engine.py:291-379 | empty data is a no-op; a bad size or invalid fields leave no gradient; otherwise the call succeeds exactly when all rows are well-formed, and outputs, loss and backward calls are those of the slices in order |
| `FsdpTraining.LogIsScaledTotal` | src/tuft/backends/fsdp_engine.py:359-370 | what a rank accumulates is the world size times the sum of its micro-batches' slopes |
| `FsdpTraining.LossTotalIsBatchTerm` | src/tuft/backends/fsdp_engine.py:327-374 | over settled rows any cutting into micro-batches totals the same per-row sum |
| `FsdpTraining.OutputsAreOwn` | src/tuft/backends/fsdp_engine.py:372-374 | over rows with targets any cutting returns every row's own outputs, in request order |
| `FsdpTraining.GradientIgnoresMicroBatching` | src/tuft/backends/fsdp_engine.py:327-370 | for settled rows the accumulated gradient and reported loss are the full-batch sums for every micro-batch size |
| `FsdpTraining.RunCollectives` | src/tuft/backends/fsdp_engine.py:360-370 | joining the ranks' backward calls one by one completes exactly when all ranks made the same number, and then leaves the average of the ranks' sums |
| `FsdpTraining.ReducedGradient` | src/tuft/backends/fsdp_engine.py:360-370 | averaging over ranks undoes the scaling: the common gradient moves by the plain sum of all slopes, on top of whatever was accumulated before |
| `FsdpTraining.RowLocalIsRowWise` | src/tuft/loss_fn/cross_entropy.py:25 | networks that see only their own row give losses, slopes and outputs that add up row by row |
| `FsdpTraining.ActorForwardBackward` | src/tuft/backends/fsdp_training_backend.py:1006-1029 | an actor runs its shard in equal micro-batches and appends exactly the backward calls of those before the first malformed one; it fails exactly when a row of its shard is malformed |
| `FsdpTraining.Gather` | src/tuft/backends/fsdp_training_backend.py:1507 | the ranks' answers are available exactly when no row of any shard is malformed |
| `FsdpTraining.RunParts` | src/tuft/backends/fsdp_training_backend.py:1489-1507 | every rank runs its own shard and appends its own backward calls, whatever happens on the others |
| `FsdpTraining.JoinResults` | src/tuft/backends/fsdp_training_backend.py:1507-1512 | the joined outputs are those of all shards in rank order, and the losses add up |
| `FsdpTraining.RowsOkByShard` | src/tuft/backends/fsdp_training_backend.py:1466 | a request is well-formed exactly when each of its shards is |
| `FsdpTraining.InStepExactlyWhenRunsAreEqual` | src/tuft/backends/fsdp_training_backend.py:1454-1479 | ranks that were in step stay so if and only if they run equally many micro-batches, so a malformed row strands the others exactly when it cuts some rank's run short of theirs |
| `FsdpTraining.Forward` | src/tuft/backends/fsdp_training_backend.py:1444-1521 | invalid fields and too few rows are refused and change no rank; otherwise the call succeeds exactly when all rows are well-formed, every rank having run its equal share up to its first malformed micro-batch; then ranks stay in step, there is one output per datum in request order, and for settled rows the common gradient and reported loss move by the full-batch sums, whatever was accumulated before |
| `FsdpTraining.Accumulate` | src/tuft/backends/fsdp_training_backend.py:630-648 | over any sequence of calls, training or evaluating, each with its own temperature, of which none fails within its micro-batches, the ranks' common gradient moves by the sum over all rows of the successful training calls, if these are settled, however they were dealt out to calls; ranks in step stay in step |
| `FsdpTraining.OneTemperatureOneBatch` | src/tuft/backends/fsdp_training_backend.py:630-648 | calls at one temperature add up to the sum of one batch of all their rows |
| `FsdpTraining.AloneMicroSize` | src/tuft/backends/fsdp_training_backend.py:1425-1428 | the size used without Ray is positive and divides the batch; it is the configured size exactly when that divides, and the whole batch otherwise |
| `FsdpTraining.AloneSplitsAsDocumentedExactly` | src/tuft/backends/fsdp_training_backend.py:1405-1411 | a call without Ray runs the documented ceil(length / size) micro-batches if and only if the size divides the batch or covers it |
| `FsdpTraining.FiveRowsBySizeTwo` | src/tuft/backends/fsdp_training_backend.py:1405-1429 | five rows with size two run as one micro-batch where three are documented |
| `FsdpTraining.ForwardAlone` | src/tuft/backends/fsdp_training_backend.py:1418-1442 | in one process: invalid fields leave no gradient, a malformed row leaves exactly the gradient of the micro-batches before it, and any other call gives the full-batch result |
| `PlainTraining.RowTermSays` | src/tuft/backends/fsdp_engine.py:245-265 | a row with targets and no weights counts the plain sum of its tokens' scores under their targets; with weights each score times its weight; without targets each token but the last under its successor |
| `PlainTraining.PreparedSays` | src/tuft/backends/fsdp_engine.py:95-142 | position by position: the network is given the tokens and then zeros, a mask of the row's length, and as labels the row's targets, or the following tokens with the next row's first token last |
| `TrainingRows.FlatIsRowMajor` | src/tuft/backends/fsdp_engine.py:61-65 | flattening a client tensor keeps its elements in row-major order |
| `PlainTraining.TruncateTowardZero` | src/tuft/backends/fsdp_engine.py:61-65 | converting a target to an integer drops its fraction toward zero |
| `PlainTraining.ReducedIsMean` | src/tuft/backends/fsdp_engine.py:360-370 | the common gradient is the mean over ranks of their calls' slopes, each times the world size |
| `PlainTraining.TrainPlain` | src/tuft/backends/fsdp_training_backend.py:1444-1521 | a call on such rows, at the temperature it names unless that is zero or missing, reports minus the sum over rows as its loss, moves the mean gradient by the same sum of the slopes, and returns every token's score under its target |
| `PlainTraining.TrainPlainAlone` | src/tuft/backends/fsdp_training_backend.py:1418-1442 | the same in one process |
| `PlainTraining.TrainedTermSays` | src/tuft/backends/fsdp_training_backend.py:630-648 | over several calls the sums of the successful training calls add up, each at its own temperature |
| `HfTraining.PrepareLabels` | src/tuft/backends/hf_training_model.py:509-510 | generic batching of `target_tokens` yields the very labels the FSDP engine prepares |
| `HfTraining.PrepareClientWeights` | src/tuft/backends/hf_training_model.py:509-516 | generic batching of `weights` yields the very weights the FSDP engine prepares |
| `HfTraining.ForwardMicroBatch` | src/tuft/backends/hf_training_model.py:454-538 | one backward call per micro-batch unless forward-only, with the loss, slope and trimmed outputs the micro-batch means |
| `HfTraining.Forward` | src/tuft/backends/hf_training_model.py:376-452 | invalid requests leave no gradient; valid ones run the ragged slices in order and return their outputs and total loss |
| `HfTraining.BackendsAgree` | src/tuft/backends/hf_training_model.py:383-425 | for rows with their own targets and weights, HF and FSDP accumulate the same gradient and report the same loss and outputs, for any two micro-batch sizes and any split over ranks |
| `HfTraining.TemperaturesAgree` | src/tuft/backends/hf_training_model.py:505-507 | the two backends read a temperature alike if and only if it is not an explicit zero |
| `PartialGradients.CancellingDot` | src/tuft/backends/fsdp_engine.py:245-265 | weights that add up to zero for every padded row, mask, position and label contribute nothing under any network |
| `PartialGradients.TotalSlope` | src/tuft/backends/fsdp_engine.py:327-370 | the slopes handed to `backward()` add up to minus the weighted evaluations of their micro-batches |
| `PartialGradients.FailureIsCleanExactlyWhenWeightsCancel` | src/tuft/backends/fsdp_engine.py:311-370 | with weights of any sign, the backward calls before the malformed micro-batch add up to nothing under every network if and only if the weights of every padded row, mask, position and label add up to zero |
| `PartialGradients.RowLocalFailureIsCleanExactlyWhenRowWeightsCancel` | src/tuft/backends/fsdp_engine.py:311-370 | under networks that see only their own row, the same holds if and only if the weights of every row, position and label add up to zero over all paddings of the row, weights past a row's end counting for their padded input |
| `PartialGradients.RowLocalityMattersOnlyForMixedSigns` | src/tuft/backends/fsdp_engine.py:311-370 | the two conditions agree when no weight is negative |
| `PartialGradients.ForwardAloneLeaves` | src/tuft/backends/fsdp_training_backend.py:1418-1442 | a failing call without Ray leaves behind exactly the weighted evaluations of its micro-batches before the malformed one |
| `PartialGradients.ForwardLeaves` | src/tuft/backends/fsdp_training_backend.py:1444-1512 | over several ranks the common gradient is off by exactly what all ranks ran before their malformed rows |
| `PartialGradients.FailureIsCleanExactlyWhenPrefixWeightless` | src/tuft/backends/fsdp_engine.py:311-370 | micro-batches without weight before the failing one always leave nothing; when no weight is negative, nothing else does |
| `PartialGradients.PlainFailureIsCleanExactlyInFirstMicroBatch` | src/tuft/backends/fsdp_engine.py:311-370 | on ordinary supervised rows a malformed row leaves nothing behind if and only if the first micro-batch already contains one |
| `Metrics.AddReport` | src/tuft/backends/fsdp_engine.py:277-280 | visiting a report appends its numeric values to their groups and skips the rest |
| `Metrics.MergeMicroMetrics` | src/tuft/backends/fsdp_engine.py:273-288 | in any visiting order each numeric key gets the plain mean or the sum of its values, as its suffix declares |
| `Metrics.AddShard` | src/tuft/backends/fsdp_training_backend.py:128-142 | visiting one shard's metrics in any order adds each numeric value to its total or weighted accumulator |
| `Metrics.MergeMetrics` | src/tuft/backends/fsdp_training_backend.py:116-147 | each mean key gets the average weighted by shard size, 0 for no weight; every other numeric key its sum |
| `Metrics.ReduceRequest` | src/tuft/backends/fsdp_training_backend.py:1505-1515 | a request reports the two merges one after the other, restricted to keys with a colon |
| `Metrics.IsMeanExactly` | src/tuft/backends/fsdp_training_backend.py:135-142 | a key is averaged if and only if it ends in `:mean` |
| `Metrics.MicroMergeSays` | src/tuft/backends/fsdp_engine.py:273-288 | a key every micro-batch reports gets the sum of its values, divided by their number if it is averaged |
| `Metrics.ShardMergeSays` | src/tuft/backends/fsdp_training_backend.py:116-147 | a key every shard reports gets the sum of its values, or, if it is averaged, the sum of value times shard size divided by the sum of the sizes |
| `Metrics.RequestSays` | src/tuft/backends/fsdp_training_backend.py:1505-1515 | for a tagged key the request's answer is the second merge of the first merges |
| `Metrics.UntaggedKeysDrop` | src/tuft/backends/fsdp_training_backend.py:1505-1515 | no key without a colon is answered |
| `Metrics.SumOfMeans` | src/tuft/backends/fsdp_engine.py:284-285 | means of parts of one size, added up, are the total scaled by that size |
| `Metrics.WeightedMeans` | src/tuft/backends/fsdp_training_backend.py:137-145 | means weighted by part sizes accumulate to the total and the number of rows, for parts of any size |
| `Metrics.ActorReportDescribesShard` | src/tuft/backends/fsdp_training_backend.py:1008-1024 | an actor's unweighted merge is the declared reduction of its whole shard, because its micro-batches have one size |
| `Metrics.TwoLevelMergeIsFlat` | src/tuft/backends/fsdp_training_backend.py:1505-1515 | both merges together give the total of a sum key and the true row mean of a mean key over all rows of the request |
| `Metrics.UnweightedMeanExactExactlyWhenSizeDivides` | src/tuft/backends/fsdp_engine.py:282-288 | averaging slice means is the row mean for all values if and only if the size divides the batch or covers it |
| `SlotNames.JoinSplit` | src/tuft/backends/fsdp_training_backend.py:588-592 | a dotted path is determined by its components |
| `SlotNames.SplitJoin` | src/tuft/backends/fsdp_training_backend.py:588-592 | dot-free components are recovered from the path they make |
| `SlotNames.ContainsIsOccurrence` | src/tuft/backends/fsdp_training_backend.py:588-592 | the substring test finds a text exactly when it occurs at some position |
| `SlotNames.MentionsIsInterior` | src/tuft/backends/fsdp_training_backend.py:588-592 | `.name.` occurs in a path if and only if the dot-free name is a component other than the first and last |
| `SlotNames.LoraNameMatches` | src/tuft/backends/fsdp_training_backend.py:588-597 | a slot's parameters are selected by its own name only, and the half tests tell `lora_A` from `lora_B` |
| `SlotNames.LoraNameInjective` | src/tuft/backends/fsdp_training_backend.py:70-73 | layer, half and slot are determined by the parameter's name |
| `SlotNames.StripIsSubstitution` | src/tuft/backends/fsdp_training_backend.py:73-82 | the component-wise form is the regular expression's: keys it matches are cut as the replacement says, others are unchanged |
| `SlotNames.CanonicalIdempotentExactlyUnlessDoubled` | src/tuft/backends/fsdp_training_backend.py:76-82 | canonicalizing twice is canonicalizing once if and only if the key does not carry two LoRA halves before its slot |
| `SlotNames.CanonicalForgetsSlot` | src/tuft/backends/fsdp_training_backend.py:76-82 | the canonical key does not depend on the slot |
| `SlotNames.CanonicalInjectivePerSlot` | src/tuft/backends/fsdp_training_backend.py:76-82 | within one slot different parameters have different canonical keys |
| `SlotNames.AdapterNamePlain` | src/tuft/backends/fsdp_training_backend.py:453-458 | generated names contain no dot and are not LoRA halves |
| `SlotNames.AdapterNameExample` | src/tuft/backends/fsdp_training_backend.py:453-458 | slot 12 of rank 8 is named `adapter_r8_12` |
| `SlotNames.AdapterNameInjective` | src/tuft/backends/fsdp_training_backend.py:453-458 | no two slots share a name, within a rank or across ranks |
| `SlotWorker.SelectIsSlotParams` | src/tuft/backends/fsdp_training_backend.py:588-592 | over all parameters of all slots, `.slot.` selects exactly the slot's own, in layer order |
| `SlotWorker.OtherSlotsAgree` | src/tuft/backends/fsdp_training_backend.py:588-592 | an update confined to names that mention one slot leaves every other slot's values as they were |
| `SlotWorker.ConfinedKeepsOthers` | src/tuft/backends/fsdp_training_backend.py:588-618 | such an update leaves the base model and the whole state of every other slot alone |
| `SlotWorker.ResetIsFresh` | src/tuft/backends/fsdp_training_backend.py:599-618 | after a reset every weight of the slot is as drawn (`lora_A` afresh, `lora_B` zero), with no optimizer, no steps and no gradients, whatever its earlier tenants did, and nothing else has changed |
| `SlotWorker.FreshWeightsSay` | src/tuft/backends/fsdp_training_backend.py:580-597 | layer by layer: `lora_A` as drawn for that parameter's own name, `lora_B` zero |
| `SlotWorker.Worker.constructor` | src/tuft/backends/fsdp_training_backend.py:438-451 | a new worker has no slots, names or parameters |
| `SlotWorker.Worker.GenerateAdapterName` | src/tuft/backends/fsdp_training_backend.py:453-458 | successive names of a rank count up from zero |
| `SlotWorker.Worker.AddSlot` | src/tuft/backends/fsdp_training_backend.py:496-522 | registers one new, free slot of the rank under a name no slot has |
| `SlotWorker.Worker.BuildSlots` | src/tuft/backends/fsdp_training_backend.py:493-522 | every configured rank gets exactly its configured number of slots |
| `SlotWorker.Worker.Initialize` | src/tuft/backends/fsdp_training_backend.py:460-559 | fails exactly when no slot is configured; otherwise the pool is valid, every rank has its configured count and nothing is taken |
| `SlotWorker.Worker.ReinitAdapterWeights` | src/tuft/backends/fsdp_training_backend.py:580-597 | each parameter of the slot is zero (`lora_B`) or drawn afresh (`lora_A`); all others keep their value |
| `SlotWorker.Worker.ClearGrads` | src/tuft/backends/fsdp_training_backend.py:614-618 | exactly the slot's gradients are dropped |
| `SlotWorker.Worker.ResetAdapterSlot` | src/tuft/backends/fsdp_training_backend.py:599-618 | an unknown name changes nothing; a known slot has every weight redrawn, nothing left of its past, keeps its rank, and no other slot is touched |
| `SlotWorker.Worker.FirstFree` | src/tuft/backends/fsdp_training_backend.py:876-881 | answers with a free slot of the rank, or nothing exactly when all are taken |
| `SlotWorker.Worker.AllocateSlot` | src/tuft/backends/fsdp_training_backend.py:874-881 | hands out a free slot of the rank, marked taken and with every weight redrawn, touching no other; answers nothing, changing nothing, exactly when all are taken |
| `SlotWorker.Worker.ReserveSlot` | src/tuft/backends/fsdp_training_backend.py:883-891 | marks the named slot and redraws its every weight if it exists, touching no other |
| `SlotWorker.Worker.ReleaseSlot` | src/tuft/backends/fsdp_training_backend.py:893-897 | the slot is no longer taken, and every weight, gradient and optimizer of its tenant is gone; no other is touched |
| `SlotWorker.Worker.CreateOptimizer` | src/tuft/backends/fsdp_training_backend.py:561-567 | an optimizer over exactly the slot's own parameters, unless there is one already |
| `SlotWorker.Worker.ForwardBackward` | src/tuft/backends/fsdp_training_backend.py:620-659 | adds the call's gradients to those still accumulated on the slot, position by position, and nothing in a forward-only call; weights and every other slot stay; a first gradient is taken as it is |
| `SlotWorker.Worker.OptimStep` | src/tuft/backends/fsdp_training_backend.py:661-697 | one AdamW step with the given hyper-parameters on gradients clipped by this slot's own norm, then no gradients and one more step counted; no other slot's weights, gradients or optimizer change; each weight with a gradient becomes the step's output for the given hyper-parameters, its own moment and its clipped gradient, with the moment stored, and the others keep both |
| `SlotWorker.Worker.ClipGrads` | src/tuft/backends/fsdp_training_backend.py:687-693 | scales the slot's gradients by one factor of those gradients alone |
| `SlotWorker.Worker.AdamStep` | src/tuft/backends/fsdp_training_backend.py:694 | every parameter with a gradient is stepped once with its own moment, the others are skipped |
| `SlotWorker.Worker.SaveCheckpoint` | src/tuft/backends/fsdp_training_backend.py:699-745 | the saved dictionary holds exactly the slot's weights under slot-independent keys; the optimizer file is the slot's state when asked for and present, and otherwise whatever already lay at the path |
| `SlotWorker.Worker.LoadCheckpoint` | src/tuft/backends/fsdp_training_backend.py:817-872 | differing targets are refused first and change nothing; weights come from the matching keys by position; loading fails as unmatched exactly when no key matches; an optimizer of another size is refused; no other slot changes |
| `SlotWorker.Worker.LoadValidated` | src/tuft/backends/fsdp_training_backend.py:839-872 | once the targets agree: the weights are exactly the matching values, the rest as before, and the size error occurs exactly for a present optimizer of another size |
| `SlotWorker.Worker.RestoreOptimizer` | src/tuft/backends/fsdp_training_backend.py:866-872 | the saved state is restored by position exactly when the sizes agree |
| `SlotWorker.CanonKeysDistinct` | src/tuft/backends/fsdp_training_backend.py:844 | distinct layers give distinct checkpoint keys |
| `SlotWorker.CanonKeysFixed` | src/tuft/backends/fsdp_training_backend.py:844 | the keys of a checkpoint are canonical already, so canonicalizing them again on load changes nothing |
| `SlotWorker.LoadRestoresSaved` | src/tuft/backends/fsdp_training_backend.py:839-865 | loading what any slot of the same geometry saved restores exactly the saved weights, all of them matched |
| `SlotWorker.Restore` | src/tuft/backends/fsdp_training_backend.py:817-872 | a checkpoint of any slot restores into any slot of any pool with the same layers: its weights, and its optimizer's hyper-parameters and moments by position, unless that optimizer is of another size; gradients and other slots are untouched |
| `SlotWorker.SaveThenLoad` | src/tuft/backends/fsdp_training_backend.py:699-872 | saving one slot and loading into another, across names and pools, gives the target exactly the source's weights and, if asked for and present, its optimizer; a save that writes no optimizer lets an older file at the path be loaded instead |
| `SlotRuns.OptimizedIs` | src/tuft/backends/fsdp_training_backend.py:661-697 | a slot's info, weights, gradients and every moment after an optimizer step are one function of what they were before it |
| `SlotRuns.Perform` | src/tuft/backends/fsdp_training_backend.py:598-900 | each operation on a slot leaves it in the state that its own previous state and the operation determine, and touches no other |
| `SlotRuns.Run` | src/tuft/backends/fsdp_training_backend.py:598-900 | over any interleaving of training, stepping, resetting, reserving, releasing, saving, loading and allocating, every slot ends in the state that its own operations alone, run from its own start, lead to, and the base model is as it was |
| `SlotRuns.SameOwnSameSlot` | src/tuft/backends/fsdp_training_backend.py:598-900 | two pools that begin with one slot alike end with it alike if the operations naming it are the same, whatever else they hold and do |
| `SlotBackend.AllocateEverywhere` | src/tuft/backends/fsdp_training_backend.py:1341-1354 | the lead rank's answer is made good on every rank: the same slot is marked and freshened everywhere and nothing else changes; no answer changes nothing |
| `SlotBackend.BindingAgreesExactlyWhenFresh` | src/tuft/backends/fsdp_training_backend.py:1364-1365 | writing both name maps keeps maps and taken slots in agreement if and only if the run id is new |
| `SlotBackend.UnbindingAgrees` | src/tuft/backends/fsdp_training_backend.py:1369-1384 | dropping both entries and releasing the slot keeps them in agreement |
| `SlotBackend.AnswerMeansHeld` | src/tuft/backends/fsdp_training_backend.py:874-881 | the lead's table answers nothing exactly when runs hold all slots of the rank; otherwise its answer is held by nobody |
| `SlotBackend.SlotsAreConserved` | src/tuft/backends/fsdp_training_backend.py:1357-1363 | runs that asked for a rank plus its free slots make up its slots, and a rank is exhausted exactly when that many runs asked for it |
| `SlotBackend.Backend.constructor` | src/tuft/backends/fsdp_training_backend.py:1084-1107 | a backend over freshly built, equal pools starts consistent with no runs |
| `SlotBackend.Backend.Capacity` | src/tuft/backends/fsdp_training_backend.py:1357-1363 | in every consistent state used plus free is the configured capacity of each rank |
| `SlotBackend.Backend.TakeEverywhere` | src/tuft/backends/fsdp_training_backend.py:1338-1354 | finds a slot nobody holds, switched on every rank, or nothing exactly when all of the rank are held |
| `SlotBackend.Backend.CreateAdapter` | src/tuft/backends/fsdp_training_backend.py:1326-1365 | an unconfigured rank is refused; exhaustion is reported exactly when every slot of the rank is held, naming the capacity, and changes nothing; otherwise the run gets a free slot of its rank, fresh on every rank; agreement is kept exactly when the id is new |
| `SlotBackend.Backend.RemoveAdapter` | src/tuft/backends/fsdp_training_backend.py:1367-1384 | an unknown id changes nothing; a known one gives its slot back on every rank, fresh, and nothing else changes |
| `SlotBackend.Run` | src/tuft/backends/fsdp_training_backend.py:1326-1384 | every state reachable by creating runs under new ids and removing runs is consistent on every rank; a new run is admitted if and only if its rank is configured and has fewer runs than slots |
| `SequenceExecutor.RootIsLeast` | src/tuft/sequence_executor.py:60 | the root of the heap has the least sequence id of all |
| `SequenceExecutor.SiftDown` | src/tuft/sequence_executor.py:42 | after an append, moving parents down restores the heap and keeps its items |
| `SequenceExecutor.SiftUp` | src/tuft/sequence_executor.py:60 | after taking the root, moving smaller children up and settling the item restores the heap and keeps its items |
| `SequenceExecutor.HeapPush` | src/tuft/sequence_executor.py:42 | the heap gains exactly the task |
| `SequenceExecutor.HeapPop` | src/tuft/sequence_executor.py:60 | the heap loses exactly one task, and none in it had a smaller id |
| `SequenceExecutor.SubmitKeepsInvariant` | src/tuft/sequence_executor.py:40-46 | submitting keeps one processor at most, a live one whenever something is queued unless a cancellation has ended it, every task accounted for and the starts in order |
| `SequenceExecutor.TakeKeepsInvariant` | src/tuft/sequence_executor.py:54-60 | so does taking the least task |
| `SequenceExecutor.StopKeepsInvariant` | src/tuft/sequence_executor.py:56-58 | so does stopping on an empty queue, which therefore loses no wake-up |
| `SequenceExecutor.CompleteKeepsInvariant` | src/tuft/sequence_executor.py:61-67 | so does completing a task, settled by its result or already timed out |
| `SequenceExecutor.BreakKeepsInvariant` | src/tuft/sequence_executor.py:61-67 | a function that raises `CancelledError` ends the processor with its flag still up; tasks stay accounted for and the starts in order |
| `SequenceExecutor.Executor.constructor` | src/tuft/sequence_executor.py:20-24 | a new executor satisfies the invariant with nothing queued |
| `SequenceExecutor.Executor.Submit` | src/tuft/sequence_executor.py:26-46 | the task is queued under its own future and a processor starts exactly when none is live and none has been ended by a cancellation |
| `SequenceExecutor.Executor.TakeNext` | src/tuft/sequence_executor.py:53-60 | under the lock the processor stops exactly when the queue is empty, and otherwise starts a task that was queued |
| `SequenceExecutor.Executor.Complete` | src/tuft/sequence_executor.py:61-67 | the awaited task is executed, its waiting future gets exactly the function's outcome, a timed-out one and all others stay, and the processor returns to the lock |
| `SequenceExecutor.Executor.Break` | src/tuft/sequence_executor.py:61-67 | the awaited function is cancelled: no processor is left, the flag stays up, and its future stays as it is |
| `SequenceExecutor.Executor.TimeOut` | src/tuft/sequence_executor.py:47-50 | a timed-out future is settled for good; its task stays queued or running and is still accounted for |
| `SequenceExecutor.Executor.Run` | src/tuft/sequence_executor.py:26-67 | over every interleaving of submissions, steps, cancelled functions and timeouts the invariant holds, histories only grow and settled futures stay settled; without a cancelled function no processor is lost, and once one is, no task starts or completes any more; every event does to the whole state what is listed for it |
| `SequenceExecutor.DoneByOwnTask` | src/tuft/sequence_executor.py:61-67 | in any such run a future holds an outcome only because its own task's function ended with that outcome while it was waiting |
| `SequenceExecutor.Executor.RunNext` | src/tuft/sequence_executor.py:53-67 | left alone, the processor runs the least queued task to completion or cancellation, or stops on an empty queue |
| `SequenceExecutor.Executor.Drain` | src/tuft/sequence_executor.py:53-67 | left alone, it executes everything queued, in ascending order, and stops, if and only if no queued function ends cancelled; otherwise it executes those before the first that does, which is its last; the waiting futures of the executed tasks get their own functions' outcomes and no others change |
| `SequenceExecutor.AllExecutedExactlyUnlessBroken` | src/tuft/sequence_executor.py:53-67 | with no live processor every submission has been executed exactly once if and only if no cancellation has ended the processor, and then every future is settled, timed out or not; otherwise the cancelled function's future never gets a result |
| `SequenceExecutor.OvertakenOnlyIfLate` | src/tuft/sequence_executor.py:11-17 | a task started after one with a larger id was not queued when that one started |
| `FileRedis.ReplayHolds` | src/tuft/persistence/file_redis.py:88-129 | replaying writes and purges leaves each key with its last write, unless a purge since has found it expired |
| `FileRedis.ServedAsSpecifiedExactly` | src/tuft/persistence/file_redis.py:88-97 | a read answers "last write to the key, not yet expired" if and only if the key's expiry is not the instant 0.0 in the past and the clock has not gone back over an expiry already purged |
| `FileRedis.SteadyClockIsNeverSetBack` | src/tuft/persistence/file_redis.py:88-97 | with a clock that never goes back the second exception does not occur |
| `FileRedis.AppliedAppend` | src/tuft/persistence/file_redis.py:247-263 | applying two logs one after the other is applying their concatenation |
| `FileRedis.Store.constructor` | src/tuft/persistence/file_redis.py:55-76 | opening a file shows whatever log the file shows |
| `FileRedis.Store.Dump` | src/tuft/persistence/file_redis.py:78-86 | the file becomes the table; dying at any moment of the dump leaves the file as before or as after |
| `FileRedis.Store.PurgeExpired` | src/tuft/persistence/file_redis.py:88-97 | drops exactly the expired entries, whatever the clock reads, keeps disk equal to memory and is crash-safe |
| `FileRedis.Store.Set` | src/tuft/persistence/file_redis.py:99-112 | the log gains the write; disk and table show it afterwards; crash-safe |
| `FileRedis.Store.SetEx` | src/tuft/persistence/file_redis.py:114-129 | the same with an expiry at now plus the ttl |
| `FileRedis.Store.Delete` | src/tuft/persistence/file_redis.py:145-162 | the log gains the removal of the keys; disk and table show it afterwards; the count is of keys still in the table, expired or not; crash-safe |
| `FileRedis.Store.Get` | src/tuft/persistence/file_redis.py:131-143 | answers from the log alone, its own purge included; on the table: the value unless an expiry other than 0.0 has passed |
| `FileRedis.Store.Exists` | src/tuft/persistence/file_redis.py:164-175 | likewise |
| `FileRedis.Store.Scan` | src/tuft/persistence/file_redis.py:177-192 | yields exactly the matching keys the log still holds |
| `FileRedis.Pipeline.Exit` | src/tuft/persistence/file_redis.py:228-230 | a raised exception changes nothing; otherwise all queued operations take effect, and a crash shows all of them or none |
| `FileRedis.Pipeline.Execute` | src/tuft/persistence/file_redis.py:247-263 | the same operations in order, one dump, all or nothing under a crash |
| `FileRedis.WritesObey` | src/tuft/persistence/file_redis.py:247-263 | in turn, a queued set stores without expiry, a setex with its expiry at now plus the ttl, and a delete removes its keys |
| `FileRedis.Sequentially` | src/tuft/persistence/file_redis.py:247-263 | running the operations one by one leaves the same table and log as the pipeline |
| `FileRedis.OneMoreOp` | src/tuft/persistence/file_redis.py:78-86 | one more crash-safe operation keeps every disk content tied to the operation it arose in |
| `FileRedis.Run` | src/tuft/persistence/file_redis.py:78-263 | over any run of operations and batches, a disk content that arose during operation k shows the log after exactly k operations or k + 1, so nothing completed is lost and nothing is half done |
| `StoreKeys.EscapeFixedExactly` | src/tuft/persistence/redis_store.py:257-260 | a key part is left as it is if and only if it holds no separator |
| `StoreKeys.EscapeLeavesNoSeparator` | src/tuft/persistence/redis_store.py:257-260 | an escaped part holds no separator, so escaping twice is escaping once |
| `StoreKeys.SharesKeyExactly` | src/tuft/persistence/redis_store.py:257-260 | some other name escapes to the same part if and only if the name holds `::`, or holds `__SEP__` other than right after a colon |
| `StoreKeys.TwoNamesOneKey` | src/tuft/persistence/redis_store.py:257-260 | `a::b` and `a__SEP__b` escape alike |
| `StoreKeys.PlainNameOwnsKey` | src/tuft/persistence/redis_store.py:257-260 | a name without colon and underscore shares its escape with no other name |
| `TrainingRuns.PaddedValue` | src/tuft/training_controller.py:660 | reading a padded counter back gives the counter |
| `TrainingRuns.AutoNameInjective` | src/tuft/training_controller.py:660 | different counters give different names, past four digits as well |
| `TrainingRuns.AutoNameSays` | src/tuft/training_controller.py:660 | an automatic name is `checkpoint-` and at least four digits that read as the counter, exactly four below 10000 |
| `TrainingRuns.AutoNameTakenExactlyByClient` | src/tuft/training_controller.py:654-664 | the next automatic name is taken if and only if a client chose that very name |
| `TrainingRuns.CommitKeepsInvariant` | src/tuft/training_controller.py:318-360 | committing run and checkpoint together keeps every persisted automatic number below the persisted counter and the persisted id at most one behind |
| `TrainingRuns.WritesOneNameExactly` | src/tuft/training_controller.py:218-227 | writing or deleting a checkpoint under its key updates the folder at that one name if and only if no other name in the folder has the same escape |
| `TrainingRuns.AutoNameOwnsKey` | src/tuft/training_controller.py:660 | no client name, however spelled, shares the key of an automatic one |
| `TrainingRuns.TrainingRun.constructor` | src/tuft/training_controller.py:94-97 | a new run starts at sequence id 1 and checkpoint 1 of each kind, persisted |
| `TrainingRuns.TrainingRun.Reopened` | src/tuft/training_controller.py:229-288 | a run read back with counters above its automatic checkpoints is sound in a new process |
| `TrainingRuns.TrainingRun.Enter` | src/tuft/training_controller.py:386-390 | a sequenced request is accepted exactly when it carries the next id; a conflict names both ids and changes nothing |
| `TrainingRuns.TrainingRun.BeginSave` | src/tuft/training_controller.py:653-675 | takes a counter and a name; an automatic name overwrites at most a client's checkpoint and its number was never committed before; a non-empty client name is the one used |
| `TrainingRuns.TrainingRun.StoreCheckpoint` | src/tuft/training_controller.py:718-719 | the record joins the folder of its kind only |
| `TrainingRuns.PerKindSays` | src/tuft/training_controller.py:676-680 | what is set for one kind of checkpoint is found there and nowhere else |
| `TrainingRuns.TrainingRun.Commit` | src/tuft/training_controller.py:318-360 | run record and checkpoint change together, the checkpoint under its key, or the run alone if the checkpoint is gone; that the file store makes this one step is `CheckpointCommit.CommitOnDisk` |
| `TrainingRuns.TrainingRun.Fail` | src/tuft/training_controller.py:386-399 | a raising operation releases the lock and leaves the next id, and everything persisted, unchanged |
| `TrainingRuns.TrainingRun.Count` | src/tuft/training_controller.py:394-395 | the next id goes up by one exactly for a sequenced request, which is then recorded as committed |
| `TrainingRuns.TrainingRun.Leave` | src/tuft/training_controller.py:396-399 | the run record is persisted before the lock is released |
| `TrainingRuns.TrainingRun.SaveRecord` | src/tuft/training_controller.py:290-296 | the run record may be persisted at any moment without breaking the invariant |
| `TrainingRuns.TrainingRun.Forget` | src/tuft/training_controller.py:943-952 | a deleted checkpoint leaves the folder of its kind |
| `TrainingRuns.TrainingRun.Erase` | src/tuft/training_controller.py:954-958 | and then the store, whatever is under its key |
| `TrainingRuns.TrainingRun.CrashAndRestore` | src/tuft/training_controller.py:229-288 | restarting loads what was persisted, with the invariant intact |
| `TrainingRuns.Run` | src/tuft/training_controller.py:380-399 | over any interleaving with crashes: the reloaded counter exceeds every automatic number ever committed, and between crashes the ids that commit are consecutive from where the process started; every event does to the whole state what is listed for it |
| `CheckpointCommit.KeysSay` | src/tuft/training_controller.py:218-227 | a checkpoint's key is the run's, `::ckpt::` or `::sampler_ckpt::`, and the escaped name |
| `CheckpointCommit.KeysShareExactly` | src/tuft/training_controller.py:218-227 | no checkpoint has the run's key, and two of them share one if and only if they are of one kind and their names escape alike |
| `CheckpointCommit.ReadsBack` | src/tuft/training_controller.py:272-288 | entering every record under the name it carries gives back exactly the folders the table holds |
| `CheckpointCommit.ReadsBackUniquely` | src/tuft/training_controller.py:229-288 | a table gives back one run record and one pair of folders only |
| `CheckpointCommit.OneNameEachKey` | src/tuft/persistence/redis_store.py:257-260 | no table holds checkpoints under two names that escape alike |
| `CheckpointCommit.SecondNameLosesFirst` | src/tuft/training_controller.py:218-227 | with `a::b` stored, storing `a__SEP__b` replaces its record and deleting `a__SEP__b` removes it |
| `CheckpointCommit.SaveBoth` | src/tuft/persistence/redis_store.py:462-485 | saving both records through the pipeline leaves both, and of the checkpoints with the same key the new one only; dying at any moment leaves the old pair or the new pair |
| `CheckpointCommit.CommitOnDisk` | src/tuft/training_controller.py:318-360 | dying at any moment of a commit leaves the run and its checkpoints as before or as after, where after means the checkpoint in place of whatever its key held; a checkpoint deleted meanwhile leaves the run record alone |
| `CheckpointCommit.StepOnDisk` | src/tuft/training_controller.py:380-399 | every step of a run, deletions included, has that property; every content on the way and at the end shows the folders as before or with just the one name written or removed, if and only if no other stored name has that name's key |
| `CheckpointCommit.AsDocumentedExactly` | src/tuft/training_controller.py:318-360 | contents that are the old pair or the one the writes make are also the old pair or the documented one if and only if the name shares its key with no other stored name |
| `CheckpointCommit.StepReloads` | src/tuft/training_controller.py:229-288 | whatever is read back after dying in a step has counters above its automatic checkpoints and above every number committed before the step |
| `CheckpointCommit.RunOnDisk` | src/tuft/training_controller.py:318-360 | over any interleaving and for all names, a disk content that arose during step k reads back to a counter above every automatic number committed before step k; the run itself goes through exactly the steps of the events |
| `CheckpointCommit.SomeLog` | src/tuft/persistence/file_redis.py:62-76 | every file can be opened: its table is what some log leaves |
| `CheckpointCommit.Reopen` | src/tuft/training_controller.py:229-288 | opening any such content starts a sound process that still accounts for every committed number, to which the same applies again |
| `Futures.FutureStore.MarkWhere` | src/tuft/futures.py:198-266 | whatever the visiting order, exactly the futures meeting the test fail with the reason; every content the disk has meanwhile shows each future as before or as after |
| `Futures.FutureStore.MarkPendingSamplesFailed` | src/tuft/futures.py:253-266 | exactly the pending samples fail |
| `Futures.FutureStore.MarkModelPendingFailed` | src/tuft/futures.py:232-251 | exactly the model's pending futures fail; completed results stay |
| `Futures.FutureStore.MarkFailedAfterCheckpoint` | src/tuft/futures.py:198-215 | exactly the model's futures above the checkpoint's id fail, or all of them without one, completed ones included |
| `Futures.FutureStore.Enqueue` | src/tuft/futures.py:272-300 | the new future is pending under an id above every existing one; no other future changes |
| `Futures.FutureStore.AllocateFutureId` | src/tuft/futures.py:169-173 | the id handed out exceeds every existing one |
| `Futures.FutureStore.MarkReady` | src/tuft/futures.py:401-414 | one future becomes ready with its payload and no error; an unknown id changes nothing |
| `Futures.FutureStore.MarkFailed` | src/tuft/futures.py:425-440 | one future becomes failed and keeps its payload; an unknown id changes nothing |
| `Futures.FutureStore.Restore` | src/tuft/futures.py:136-151 | every stored future comes back with its status and payload, events set exactly for completed ones, and the next id exceeds them all |
| `Futures.Serve` | src/tuft/futures.py:169-177 | whatever is enqueued and completed after the current id was read, every future from before keeps an id up to it and every later one has a larger id; every request does to the futures what is listed for it |
| `Recovery.PendingExactly` | src/tuft/state.py:163-218 | a future is pending after recovery if and only if it was, is no sample, and belongs to no run or to a restored one at or below its checkpoint's id |
| `Recovery.ReadyKeptExactly` | src/tuft/state.py:163-218 | a finished result survives if and only if it is not above its restored run's checkpoint and that run has one |
| `Recovery.Latest` | src/tuft/training_controller.py:1021-1030 | nothing exactly without checkpoints; otherwise a checkpoint newer than all before it and as new as all after it |
| `Recovery.LatestCheckpoint` | src/tuft/training_controller.py:1021-1030 | the scan finds that one |
| `Recovery.RestoreFromCheckpoint` | src/tuft/training_controller.py:1068-1163 | returns the newest checkpoint whatever happens to the adapter, nothing for a run without backend or with legacy state; says exactly when the run becomes corrupted and when it is left with an adapter; legacy state, a geometry mismatch, an alpha mismatch and two failed loads are what corrupts a run |
| `Recovery.SettleRun` | src/tuft/state.py:175-218 | one run's branch settles every future as that run's fate says, leaves other models' futures alone, and leaves the run corrupted exactly when its restore did |
| `Recovery.Recover` | src/tuft/state.py:163-218 | every future ends as its own record and its run's fields say; every content the store has meanwhile shows each future as before, with its sample settled, or, its run's flag being written, settled by its run |
| `Recovery.FateSays` | src/tuft/state.py:163-218 | by the run's own fields: a corrupted run's pending futures fail as such, a run without backend fails its pending ones for the missing capability, a restored one fails every future after its newest checkpoint, naming it, and one without checkpoint or with legacy state fails all; pending samples fail as interrupted, payloads stay and nothing else changes |
| `Recovery.OneNewest` | src/tuft/training_controller.py:1084-1153 | there is only one newest checkpoint |
| `Recovery.FatesIgnoreOrder` | src/tuft/state.py:175 | visiting the runs in another order gives every future the same fate |
| `Recovery.RestartSettlesAlikeExactly` | src/tuft/training_controller.py:1084-1153 | dying at any moment of a recovery and starting over gives a future the status of the uninterrupted one if and only if the restore does not mark its run corrupted, or the future is neither finished above the checkpoint nor pending at or below it |
| `Recovery.RestartsSettleAlikeExactly` | src/tuft/training_controller.py:1084-1153 | the same for recoveries that died any number of times, each at any moment: the last one agrees with an uninterrupted one if and only if no attempt that died marks the run corrupted, or the future is neither finished above the checkpoint nor pending at or below it |
| `Recovery.SecondRecoveryFailsKeptPending` | src/tuft/training_controller.py:1141-1161 | a second recovery of a run the first one marked corrupted changes exactly the futures left pending at or below the checkpoint |
| `Recovery.PendingSurvivesOneRecoveryOnly` | src/tuft/training_controller.py:1084-1089 | a run with a geometry mismatch: its pending future 5 at checkpoint 5 survives one recovery and fails in the next |
| `Recovery.ReadySurvivesAnInterruptedRecovery` | src/tuft/training_controller.py:1084-1089 | the same run: its finished future 6 survives if the process dies after the flag is saved, and fails otherwise |
| `Recovery.RecoverAgain` | src/tuft/state.py:163-218 | after any number of recoveries that died, each started from what the one before left, reading back and recovering gives every future so characterized the status of the uninterrupted recovery |
| `Recovery.CheckpointDecides` | src/tuft/state.py:311-327 | a checkpoint saved now carries the current id; whatever is served afterwards, restoring it after a crash leaves the run's futures from before the save as they were, but for pending samples, and fails all later ones, naming it |
| `WireCodec.PackUnpack` | src/tuft/compat.py:345 | an element's bytes determine it |
| `WireCodec.PackIsLittleEndian` | src/tuft/compat.py:345 | the bytes of an element are its digits to base 256, least significant first |
| `WireCodec.BytesAre` | src/tuft/compat.py:345 | four bytes for an element of float32, eight for one of int64 |
| `WireCodec.BytesRoundTrip` | src/tuft/compat.py:345 | so do an array's |
| `WireCodec.TensorToArray` | src/tuft/compat.py:313-330 | succeeds exactly for a known dtype, a dense tensor and a non-negative shape with as many cells as elements, an unknown dtype and then a sparse tensor being reported first; no shape or an empty one means a vector |
| `WireCodec.SliceIsDatum` | src/tuft/compat.py:345-348 | offsets are ordered, lie within the data, and cut out exactly each array's bytes |
| `WireCodec.BuildBatch` | src/tuft/compat.py:343-350 | one field's record holds the joined bytes and their running offsets |
| `WireCodec.FieldRoundTripExactly` | src/tuft/compat.py:343-350 | offsets run from 0 to the data's length, and each array is recovered if and only if its trailing dimensions do not multiply to zero or its leading one is zero |
| `WireCodec.LeadingLostExactlyWhenTrailingEmpty` | src/tuft/compat.py:350 | a different array of the same layout looks alike on the wire if and only if the trailing dimensions multiply to zero |
| `WireCodec.AddArrayRecord` | src/tuft/compat.py:333-350 | the record is the batch of every field of the group |
| `WireCodec.RunGrows` | src/tuft/compat.py:380-383 | a datum of the same layout extends the open run |
| `WireCodec.RunCloses` | src/tuft/compat.py:384-385 | a datum of another layout closes a maximal run and opens the next |
| `WireCodec.EncodeRecords` | src/tuft/compat.py:378-385 | the records are the batches of maximal runs of one layout whose concatenation is the input, and decode to it if and only if every leading dimension is determined |
| `WireCodec.EncodeDatum` | src/tuft/compat.py:368-371 | fails exactly when some field cannot be encoded |
| `WireCodec.EncodeDatums` | src/tuft/compat.py:368-371 | fails exactly when some datum does |
| `WireCodec.Serialize` | src/tuft/compat.py:353-387 | fails exactly when field names differ, which has its own error, or some tensor cannot be encoded; no outputs give no records; otherwise the records encode the maximal runs of all outputs in order, and decode to them if and only if every leading dimension is determined; what is read back is stated on the tensors as they were given |
| `WireCodec.SendableExactly` | src/tuft/compat.py:314-330 | all tensors can be encoded if and only if each has a known dtype, is dense, and has as many elements as the shape it declares, if it declares one, has cells |
| `WireCodec.ReadBackExactly` | src/tuft/compat.py:314-387 | a client reads back every tensor's dtype and elements, in its declared shape or as a vector without one, if and only if every leading dimension follows from the others and the number of elements |
| `WireCodec.RecordRoundTrip` | src/tuft/compat.py:333-350 | a record decodes to its group, names included, if and only if every leading dimension is determined |
| `WireCodec.RoundTripExactlyWhenDetermined` | src/tuft/compat.py:362-387 | decoding all records in order gives back every datum's fields, shapes and dtypes if and only if every leading dimension is determined by the bytes |
| `TopKCodec.ChooseK` | src/tuft/compat.py:425-430 | K is the length of the first present entry, zero without one |
| `TopKCodec.PackTopK` | src/tuft/compat.py:422-444 | nothing is sent exactly when K is zero; otherwise every row holds its entry's first K pairs and then padding |
| `TopKCodec.FirstPresentDecides` | src/tuft/compat.py:425-430 | K is the first present entry's own length |
| `TopKCodec.NonePresent` | src/tuft/compat.py:425-431 | without a present entry K is zero |
| `TopKCodec.CellSays` | src/tuft/compat.py:422-439 | a cell is the entry's pair there, or token 0 at -99999.0 |
| `TopKCodec.FillRow` | src/tuft/compat.py:435-439 | filling a row changes that row only |
| `TopKCodec.LosslessExactlyWhenFirstIsLongest` | src/tuft/compat.py:425-439 | no pair is lost if and only if no entry is longer than the first present one |
| `TopKCodec.EmptyFirstEntryDropsAll` | src/tuft/compat.py:425-431 | if the first present entry is empty, nothing is left of any entry |
| `TopKCodec.DroppedPair` | src/tuft/compat.py:425-431 | a response that loses a pair this way |
| `PromptLogprobs.StepBufferRight` | src/tuft/backends/vllm_worker.py:92-143 | a chunk changes its own slots only, and afterwards every slot computed so far holds its own token's value |
| `PromptLogprobs.ProcessChunk` | src/tuft/backends/vllm_worker.py:82-143 | completes exactly when computed plus scheduled tokens reach the prompt's length, with the buffer that chunk gives |
| `PromptLogprobs.CompleteBufferIsRight` | src/tuft/backends/vllm_worker.py:102-106 | at completion every one of the N-1 slots holds the value of prompt token i+1 |
| `PromptLogprobs.ChunksTileSlots` | src/tuft/backends/vllm_worker.py:92-112 | the slots any schedule of chunk sizes writes, skipped steps included, are consecutive, each once, up to the last |
| `PromptLogprobs.Runner21.Visit` | src/tuft/backends/vllm_worker.py:65-143 | one request's turn changes that request only, and skips unscheduled and embedding prompts |
| `PromptLogprobs.Runner21.Step` | src/tuft/backends/vllm_worker.py:50-155 | a step's answers, finished requests and buffers are determined request by request, in any visiting order |
| `PromptLogprobs.Runner12.Visit` | src/tuft/backends/vllm_worker.py:183-267 | the dictionary form's turn has the same observable effect |
| `PromptLogprobs.Runner12.Step` | src/tuft/backends/vllm_worker.py:157-279 | the dictionary form's step has the same observable effect |
| `PromptLogprobs.StepKeepsRight` | src/tuft/backends/vllm_worker.py:50-155 | a step keeps every unfinished request right and answers finished ones completely |
| `PromptLogprobs.StepDetermined` | src/tuft/backends/vllm_worker.py:281-288 | the observable effect of a step on one state is unique, so from equal states the two forms cannot differ |
| `PromptLogprobs.StepAlike` | src/tuft/backends/vllm_worker.py:281-288 | from states that differ in their buffers only, all of them right, a step gives equal answers and leaves such states |
| `PromptLogprobs.PreemptionKeepsRight` | src/tuft/backends/vllm_worker.py:66-69 | sending a request back, with its buffer or from the start without it, keeps what lies below its new position right |
| `PromptLogprobs.StepBoth` | src/tuft/backends/vllm_worker.py:281-288 | from states that differ in their buffers only, both forms answer the same requests, exactly those whose prompt ends in this step, with complete and equal answers |
| `PromptLogprobs.RunBoth` | src/tuft/backends/vllm_worker.py:281-288 | over any schedule of chunks and preemptions, which may drop a buffer in one form and keep it in the other, both forms give the same answers, each request at most once and with the complete values of the prompt it started with, and still want exactly the others; they end in the same state if every preemption treats both buffers alike, and otherwise in states that differ in buffers only; a request is answered in exactly the event that first takes its position to the prompt's end, and its values are what the model gathers for the next token, under the temperature unless that is below 1e-5 |
| `DataParallel.SharesEven` | src/tuft/backends/sampling_backend.py:426-430 | after n selections each of d replicas has been chosen n/d times, rounded down or up |
| `DataParallel.ShareStep` | src/tuft/backends/sampling_backend.py:426-430 | one more selection adds one to exactly the replica whose turn it is |
| `DataParallel.RollbackAgreesExactly` | src/tuft/backends/sampling_backend.py:489-504 | after an attempt the replicas offer the same adapters if and only if the id was new or all gave the same answer |
| `DataParallel.AgreesForAllAnswersExactly` | src/tuft/backends/sampling_backend.py:482-504 | whatever the replicas answer they agree afterwards, if and only if the id is new or there is one replica |
| `DataParallel.Replica.AddAdapter` | src/tuft/backends/sampling_backend.py:342-370 | the registry changes exactly on success, under an engine id larger than all others |
| `DataParallel.Replica.RemoveAdapter` | src/tuft/backends/sampling_backend.py:372-379 | the entry is gone even when the engine fails; the failure is reported exactly for a known id |
| `DataParallel.DPBackend.constructor` | src/tuft/backends/sampling_backend.py:404-424 | selection starts with nothing chosen |
| `DataParallel.DPBackend.NextInstance` | src/tuft/backends/sampling_backend.py:426-430 | one replica is chosen and the counts keep to the even shares |
| `DataParallel.DPBackend.AddAdapter` | src/tuft/backends/sampling_backend.py:482-504 | succeeds exactly when every replica does; afterwards the replicas agree exactly when the id was new or the answers did not differ |
| `DataParallel.DPBackend.RollBack` | src/tuft/backends/sampling_backend.py:494-501 | takes the id back exactly where it had been added, even if the engine fails to |
| `DataParallel.DPBackend.RemoveAdapter` | src/tuft/backends/sampling_backend.py:506-508 | the id is gone from every replica and agreement is kept |
| `DataParallel.Run` | src/tuft/backends/sampling_backend.py:482-508 | over any run that adds new ids only, the replicas never disagree, whatever fails on the way; they offer exactly the ids that all of them took and that have not been removed since |

## Left out

- FsdpTraining.Forward: each rank's backward calls are those it goes on to issue; waiting in a collective for a rank that has failed is described by `FsdpTraining.RunCollectives`, not by the call. Failures of remote calls for other reasons are left out.
- FsdpEngine.ForwardBackward: cross-entropy only; the reinforcement-learning losses add `logprobs` and `advantages` rows by the same copy, and other losses differ in their reduction.
- HfTraining.Forward: requires targets and weights, where given, to be vectors of the row's own length, and a positive configured size. Tokens of an empty row and the activation of the adapter are not modelled.
- SlotWorker.Worker.ReinitAdapterWeights: the random draw is a function of the parameter's name, the same on every rank; a rank draws its own shard.
- HfTraining.TemperaturesAgree: an explicit zero is kept as the temperature handed to the network; the infinities it produces are not modelled.
- HfTraining.BackendsAgree: losses, gradients and outputs; HF's `metrics_reduction` over several metric keys is not part of it.
- SlotWorker.Worker.Initialize: relies on PEFT naming LoRA parameters `<layer>.lora_A|B.<slot>.weight` with layer paths that mention no slot and no LoRA half; checks for unmatched target modules are left out.
- SlotWorker.Worker.OptimStep: AdamW on one coordinate and the factor of `clip_grad_norm_` are function parameters; the step is proved to apply them to the right slot in the right order.
- SlotRuns.Run: a call's gradient is a function of the slot's own weights, the base model being frozen.
- SlotWorker.Worker.SaveCheckpoint: `adapter.pt` and `optimizer.pt` as values; the PEFT files for vLLM, their aliases, and gathering shards from all ranks are left out.
- SlotWorker.Worker.LoadCheckpoint: a saved dictionary with two keys of one canonical form may win either way; a mismatch of tensor shapes is left out, as every parameter is one real.
- SlotBackend.Backend.CreateAdapter: the checks of the LoRA configuration before the rank test, and failures of remote calls, are left out. Calling it twice for one id is modelled, and shown to break agreement.
- SequenceExecutor.Executor.Submit: requires that no equal id is pending, since Python would go on to compare the queued functions and may raise. Cancelling the processor's own task while it waits for the lock is left out.
- FileRedis.Store.Scan: the glob is a predicate; keys are a set, without the dictionary's order.
- FileRedis.Store.Dump: a crash is modelled at every point of the dump; a dump that fails with an OSError is not, nor is a malformed file on load.
- CheckpointCommit.CommitOnDisk: through the file store; the Redis server's transactions are taken as given. Records are strings under encodings that read back; whether a name was chosen by the server is part of the modelled record, not of the stored one. Glob characters in names, records of other runs, and swallowed persistence errors, are left out.
- TrainingRuns.TrainingRun.BeginSave: client-chosen names of the automatic shape may be overwritten, as in the code; directories and metadata files are left out.
- Futures.FutureStore.MarkFailed: status, save and event in one step, as for `MarkReady`.
- Futures.FutureStore.MarkReady: status, save and event in one step, where the code awaits the save in between. `retrieve` by another user, which fails a future without setting its event, is left out.
- Futures.FutureStore.Restore: expiry of stored futures is not modelled, so ids exceed all restored ones, not all ever issued; a payload that cannot be stored is not modelled either.
- Recovery.RestoreFromCheckpoint: backend calls succeed or fail as parameters say; geometry and alpha checks are booleans.
- WireCodec.Serialize: records up to their protobuf encoding; the offsets' own bytes, metrics and field order are left out, as is the conversion of a tensor to its declared dtype.
- TopKCodec.PackTopK: values, not their 32-bit encodings.
- PromptLogprobs.ProcessChunk: the buffer is a value stored back on the request; that a finished answer is the same object as the buffer is not modelled. Hidden states and gathering are uninterpreted functions of the prompt prefix.
- DataParallel.Replica.AddAdapter: the engine's own registry and the interleaving of two concurrent adds of one id are left out.
- Float rounding, bfloat16, autocast and device transfers.
- Torch, PEFT, FSDP2, Ray, NCCL and vLLM internals; actor death.
- HTTP routing, sessions, authorization, telemetry, CLI, tokenizers and the tinker client, none of which the properties depend on.
- Pagination, configuration validators and the tables of target modules: easy members.
