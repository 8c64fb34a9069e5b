// Data-parallel forward/backward over several ranks, its single-process
// counterpart, and the gradient they leave behind
// (src/tuft/backends/fsdp_training_backend.py).
module FsdpTraining {
  import opened Wrappers
  import opened LossInputs
  import opened Sharding
  import opened TrainingRows
  import opened FsdpEngine

  // ---------- Sums of backward logs ----------

  // Compensation for the averaging that fully_shard applies across ranks.
  function LossScale(worldSize: nat): real {
    if worldSize > 1 then worldSize as real else 1.0
  }

  function Scaled(worldSize: nat, slope: real): real {
    LossScale(worldSize) * slope
  }

  function Sum(calls: seq<BackwardCall>): real {
    if calls == [] then 0.0
    else Sum(calls[..|calls| - 1]) + Scaled(calls[|calls| - 1].worldSize, calls[|calls| - 1].slope)
  }

  lemma {:induction false} SumAppend(a: seq<BackwardCall>, b: seq<BackwardCall>)
    ensures Sum(a + b) == Sum(a) + Sum(b)
  {
    if b == [] {
      assert a + b == a;
    } else {
      SumAppend(a, b[..|b| - 1]);
      assert (a + b)[..|a + b| - 1] == a + b[..|b| - 1];
    }
  }

  lemma AllSettledPart(data: seq<Datum>, lo: nat, hi: nat)
    requires AllSettled(data) && lo <= hi <= |data|
    ensures AllSettled(data[lo..hi])
  {
  }

  lemma SettledParts(a: seq<Datum>, b: seq<Datum>)
    requires AllSettled(a + b)
    ensures AllSettled(a) && AllSettled(b)
  {
    assert (a + b)[..|a|] == a && (a + b)[|a|..] == b;
    AllSettledPart(a + b, 0, |a|);
    AllSettledPart(a + b, |a|, |a + b|);
  }

  // Scoring adds one fixed term per row, for every batch of settled rows.
  ghost predicate AddsUp(score: seq<Datum> -> real, term: Datum -> real) {
    forall micro {:trigger AllSettled(micro)} :: AllSettled(micro) ==> score(micro) == -BatchTerm(term, micro)
  }

  lemma SettledAddsUp(net: Network, netScore: Score, grad: Network, gradScore: Score, temp: real, m: Meaning,
                      netTerm: Datum -> real, gradTerm: Datum -> real)
    requires Means(m, net, grad, temp) && RowLocal(net, netScore) && RowLocal(grad, gradScore)
    requires IsRowTerm(netTerm, netScore, temp) && IsRowTerm(gradTerm, gradScore, temp)
    ensures AddsUp(m.loss, netTerm) && AddsUp(m.slope, gradTerm)
  {
    forall micro | AllSettled(micro)
      ensures m.loss(micro) == -BatchTerm(netTerm, micro) && m.slope(micro) == -BatchTerm(gradTerm, micro)
    {
      MicroDotIsBatchTerm(net, netScore, temp, netTerm, micro);
      MicroDotIsBatchTerm(grad, gradScore, temp, gradTerm, micro);
    }
  }

  // Scaling commutes with accumulation.
  lemma {:induction false} LogIsScaledTotal(slope: seq<Datum> -> real, worldSize: nat, ms: seq<seq<Datum>>)
    ensures Sum(BackwardLog(slope, worldSize, ms)) == Scaled(worldSize, LossTotal(slope, ms))
  {
    if ms == [] {
      ScaledZero(worldSize);
    } else {
      var init, last := ms[..|ms| - 1], ms[|ms| - 1];
      LogIsScaledTotal(slope, worldSize, init);
      var log := BackwardLog(slope, worldSize, ms);
      assert log[..|log| - 1] == BackwardLog(slope, worldSize, init);
      ScaledAdd(worldSize, LossTotal(slope, init), slope(last), LossTotal(slope, ms));
    }
  }

  lemma ScaledAdd(worldSize: nat, a: real, b: real, c: real)
    requires a + b == c
    ensures Scaled(worldSize, a) + Scaled(worldSize, b) == Scaled(worldSize, c)
  {
  }

  lemma ScaledZero(worldSize: nat)
    ensures Scaled(worldSize, 0.0) == 0.0
  {
  }

  lemma {:induction false} LossTotalIsBatchTerm(score: seq<Datum> -> real, term: Datum -> real, ms: seq<seq<Datum>>)
    requires AddsUp(score, term) && AllSettled(Flatten(ms))
    ensures LossTotal(score, ms) == -BatchTerm(term, Flatten(ms))
  {
    if ms != [] {
      var init, last := ms[..|ms| - 1], ms[|ms| - 1];
      SettledParts(Flatten(init), last);
      LossTotalIsBatchTerm(score, term, init);
      BatchTermAppend(term, Flatten(init), last);
    }
  }

  function OwnOutputs(own: Datum -> seq<real>, data: seq<Datum>): seq<seq<real>> {
    seq(|data|, r requires 0 <= r < |data| => own(data[r]))
  }

  ghost predicate IsOwnOutput(own: Datum -> seq<real>, score: Score, temp: real) {
    forall d {:trigger OwnOutput(score, temp, d)} :: own(d) == OwnOutput(score, temp, d)
  }

  ghost predicate AllTargeted(data: seq<Datum>) {
    forall r :: 0 <= r < |data| ==> Targets(data[r]).Some?
  }

  lemma TargetedParts(a: seq<Datum>, b: seq<Datum>)
    requires AllTargeted(a + b)
    ensures AllTargeted(a) && AllTargeted(b)
  {
    forall r | 0 <= r < |a| ensures Targets(a[r]).Some? { assert (a + b)[r] == a[r]; }
    forall r | 0 <= r < |b| ensures Targets(b[r]).Some? { assert (a + b)[|a| + r] == b[r]; }
  }

  // Every batch of rows with explicit targets returns each row's own log-probabilities.
  ghost predicate ReturnsOwn(rows: seq<Datum> -> seq<seq<real>>, own: Datum -> seq<real>) {
    forall micro {:trigger AllTargeted(micro)} :: AllTargeted(micro) ==> rows(micro) == OwnOutputs(own, micro)
  }

  lemma TargetedReturnsOwn(net: Network, score: Score, grad: Network, temp: real, m: Meaning, own: Datum -> seq<real>)
    requires Means(m, net, grad, temp) && RowLocal(net, score) && IsOwnOutput(own, score, temp)
    ensures ReturnsOwn(m.rows, own)
  {
    forall micro | AllTargeted(micro)
      ensures m.rows(micro) == OwnOutputs(own, micro)
    {
      forall r | 0 <= r < |micro|
        ensures MicroOutputs(net, temp, micro)[r] == OwnOutputs(own, micro)[r]
      {
        RowOutputIsOwn(net, score, temp, micro[r], MaxLen(micro), NextFirst(micro, r));
      }
      assert MicroOutputs(net, temp, micro) == OwnOutputs(own, micro);
    }
  }

  lemma {:induction false} OutputsAreOwn(rows: seq<Datum> -> seq<seq<real>>, own: Datum -> seq<real>, ms: seq<seq<Datum>>)
    requires ReturnsOwn(rows, own) && AllTargeted(Flatten(ms))
    ensures OutputsOf(rows, ms) == OwnOutputs(own, Flatten(ms))
  {
    if ms != [] {
      var init, last := ms[..|ms| - 1], ms[|ms| - 1];
      TargetedParts(Flatten(init), last);
      OutputsAreOwn(rows, own, init);
      assert OwnOutputs(own, Flatten(init) + last) == OwnOutputs(own, Flatten(init)) + OwnOutputs(own, last);
    }
  }

  ghost predicate OnePerDatum(outputs: seq<seq<real>>, data: seq<Datum>) {
    |outputs| == |data| && forall r :: 0 <= r < |data| ==> |outputs[r]| == |data[r].tokens|
  }

  // Any batch returns one entry per token of every row.
  ghost predicate ReturnsOnePerDatum(rows: seq<Datum> -> seq<seq<real>>) {
    forall micro :: OnePerDatum(rows(micro), micro)
  }

  lemma MeaningReturnsOnePerDatum(net: Network, grad: Network, temp: real, m: Meaning)
    requires Means(m, net, grad, temp)
    ensures ReturnsOnePerDatum(m.rows)
  {
    forall micro
      ensures OnePerDatum(m.rows(micro), micro)
    {
      assert OnePerDatum(MicroOutputs(net, temp, micro), micro);
    }
  }

  // One output per datum, in request order, whatever the micro-batching.
  lemma {:induction false} OutputsPerDatum(rows: seq<Datum> -> seq<seq<real>>, ms: seq<seq<Datum>>)
    requires ReturnsOnePerDatum(rows)
    ensures OnePerDatum(OutputsOf(rows, ms), Flatten(ms))
  {
    if ms != [] {
      OutputsPerDatum(rows, ms[..|ms| - 1]);
      assert OnePerDatum(rows(ms[|ms| - 1]), ms[|ms| - 1]);
    }
  }

  // ---------- Gradient reduction across ranks ----------

  // Backward calls are collective: the k-th call of every rank joins one
  // reduce-scatter, which averages.  If one rank has run out of calls while
  // another still waits, the collective never completes.
  method RunCollectives(logs: seq<seq<BackwardCall>>) returns (reduced: Option<real>)
    requires logs != []
    ensures reduced.Some? <==> LockStep(logs)
    ensures reduced.Some? ==> reduced.value == Reduced(logs)
  {
    var grad := 0.0;
    var step := 0;
    var ranks := |logs| as real;
    StepStart(logs);
    while exists i :: 0 <= i < |logs| && step < |logs[i]|
      invariant forall i :: 0 <= i < |logs| ==> step <= |logs[i]|
      invariant grad == RankSum(logs, step, |logs|) / ranks
      decreases |logs[0]| - step
    {
      if exists i :: 0 <= i < |logs| && step >= |logs[i]| {
        return None;
      }
      var column := 0.0;
      for i := 0 to |logs|
        invariant column == RankSum(logs, step + 1, i) - RankSum(logs, step, i)
      {
        assert logs[i][..step + 1][..step] == logs[i][..step];
        column := column + Scaled(logs[i][step].worldSize, logs[i][step].slope);
      }
      DivAdd(RankSum(logs, step, |logs|), column, ranks);
      grad := grad + column / ranks;
      step := step + 1;
    }
    assert forall i :: 0 <= i < |logs| ==> |logs[i]| == step;
    reduced := Some(grad);
  }

  // Sum of the first `step` entries of the first k logs.
  function RankSum(logs: seq<seq<BackwardCall>>, step: nat, k: nat): real
    requires k <= |logs| && forall i :: 0 <= i < |logs| ==> step <= |logs[i]|
  {
    if k == 0 then 0.0 else RankSum(logs, step, k - 1) + Sum(logs[k - 1][..step])
  }

  function TotalOf(logs: seq<seq<BackwardCall>>): real {
    if logs == [] then 0.0 else TotalOf(logs[..|logs| - 1]) + Sum(logs[|logs| - 1])
  }

  // The gradient every rank ends up holding.
  function Reduced(logs: seq<seq<BackwardCall>>): real
    requires logs != []
  {
    Average(TotalOf(logs), |logs|)
  }

  function Average(total: real, n: nat): real
    requires n > 0
  {
    total / n as real
  }

  lemma {:induction false} StepStart(logs: seq<seq<BackwardCall>>)
    ensures RankSum(logs, 0, |logs|) == 0.0
    ensures forall step: nat | forall i :: 0 <= i < |logs| ==> |logs[i]| == step :: RankSum(logs, step, |logs|) == TotalOf(logs)
  {
    StepZero(logs, |logs|);
    forall step: nat | forall i :: 0 <= i < |logs| ==> |logs[i]| == step
      ensures RankSum(logs, step, |logs|) == TotalOf(logs)
    {
      FullStep(logs, step, |logs|);
      assert logs[..|logs|] == logs;
    }
  }

  lemma StepZero(logs: seq<seq<BackwardCall>>, k: nat)
    requires k <= |logs|
    ensures RankSum(logs, 0, k) == 0.0
  {
  }

  lemma {:induction false} FullStep(logs: seq<seq<BackwardCall>>, step: nat, k: nat)
    requires k <= |logs| && forall i :: 0 <= i < |logs| ==> |logs[i]| == step
    ensures RankSum(logs, step, k) == TotalOf(logs[..k])
  {
    if k > 0 {
      FullStep(logs, step, k - 1);
      assert logs[..k][..k - 1] == logs[..k - 1] && logs[k - 1][..step] == logs[k - 1];
    }
  }

  lemma DivAdd(a: real, b: real, c: real)
    requires c != 0.0
    ensures a / c + b / c == (a + b) / c
  {
  }

  // ---------- FSDPTrainingBackend.forward ----------

  datatype ForwardError =
    | Engine(inner: EngineError)
    | Validation(field: FieldError)
    | TooFewRows(rows: nat, ranks: nat)

  function Logs(actors: seq<TrainModule>): (logs: seq<seq<BackwardCall>>)
    reads actors
    ensures |logs| == |actors| && forall i :: 0 <= i < |actors| ==> logs[i] == actors[i].backwards
  {
    if actors == [] then [] else Logs(actors[..|actors| - 1]) + [actors[|actors| - 1].backwards]
  }

  ghost predicate Distinct(actors: seq<TrainModule>) {
    forall i, j :: 0 <= i < j < |actors| ==> actors[i] != actors[j]
  }

  // FSDPWorkerActor.forward_backward on one shard, run as the micro-batches `part`.
  method ActorForwardBackward(actor: TrainModule, net: Network, grad: Network, shard: seq<Datum>, temperature: Option<real>,
                              eff: Option<int>, worldSize: nat, backward: bool, clientKeys: seq<string>,
                              ghost m: Meaning, ghost part: seq<seq<Datum>>)
    returns (r: Result<EngineOutput, EngineError>)
    requires Means(m, net, grad, EffectiveTemperature(temperature))
    requires ShardReady(shard, clientKeys)
    requires part == Micros(shard, ActorMicroSize(|shard|, eff))
    modifies actor
    ensures actor.backwards == old(actor.backwards) + PartLog(m.slope, worldSize, GoodPrefix(part), backward)
    ensures Answers(r, m, shard, part)
  {
    var mb := ActorMicroSize(|shard|, eff);
    r := ForwardBackward(actor, net, grad, shard, temperature, mb, worldSize, !backward, Some(clientKeys), m);
  }

  // A rank fails exactly when one of its rows is malformed.
  ghost predicate Answers(r: Result<EngineOutput, EngineError>, m: Meaning, shard: seq<Datum>, part: seq<seq<Datum>>) {
    (r.Ok? <==> RowsOk(shard)) && (r.Ok? ==> r.value == PartOutput(m, part))
  }

  function PartLog(slope: seq<Datum> -> real, worldSize: nat, part: seq<seq<Datum>>, backward: bool): seq<BackwardCall> {
    if backward then BackwardLog(slope, worldSize, part) else []
  }

  lemma GoodWhenAllOk(data: seq<Datum>, ms: seq<seq<Datum>>)
    requires RowsOk(data) && Flatten(ms) == data
    ensures GoodPrefix(ms) == ms
  {
    GoodMicros(data, ms, []);
    assert ms + [] == ms;
  }

  // A slice of a validated request is itself valid for the keys of the whole.
  lemma ShardIsValid(data: seq<Datum>, keys: seq<string>, lo: nat, hi: nat, shard: seq<Datum>)
    requires AllValid(data) && lo < hi <= |data| && shard == data[lo..hi]
    requires forall k :: k in keys <==> Mentioned(data, k)
    requires forall k :: Mentioned(data, k) && k !in FSDP_OWNED ==> Uniform(data, k)
    ensures AllValid(shard) && ValidRequest(shard, Some(keys))
  {
    forall k | Mentioned(shard, k)
      ensures Mentioned(data, k) && (k !in FSDP_OWNED ==> Uniform(shard, k))
    {
      MentionedOnSlices(data, k, lo, hi);
      if k !in FSDP_OWNED {
        UniformOnSlices(data, k, lo, hi);
      }
    }
    forall k | k in keys && k !in FSDP_OWNED
      ensures Mentioned(shard, k)
    {
      assert data[lo] in data && k in data[lo].fields.values;
      assert k in shard[0].fields.order;
    }
  }

  // What each rank's micro-batches add to its log.
  function PartLogs(slope: seq<Datum> -> real, worldSize: nat, parts: seq<seq<seq<Datum>>>, backward: bool): (logs: seq<seq<BackwardCall>>)
    ensures |logs| == |parts| && forall i :: 0 <= i < |parts| ==> logs[i] == PartLog(slope, worldSize, parts[i], backward)
  {
    if parts == [] then []
    else PartLogs(slope, worldSize, parts[..|parts| - 1], backward) + [PartLog(slope, worldSize, parts[|parts| - 1], backward)]
  }

  function Pairwise(a: seq<seq<BackwardCall>>, b: seq<seq<BackwardCall>>): (c: seq<seq<BackwardCall>>)
    requires |a| == |b|
    ensures |c| == |a| && forall i :: 0 <= i < |a| ==> c[i] == a[i] + b[i]
  {
    if a == [] then [] else Pairwise(a[..|a| - 1], b[..|b| - 1]) + [a[|a| - 1] + b[|b| - 1]]
  }

  // The ranks' logs after one call, given those before it.
  function ExtendedLogs(before: seq<seq<BackwardCall>>, slope: seq<Datum> -> real, parts: seq<seq<seq<Datum>>>, backward: bool): seq<seq<BackwardCall>>
    requires |before| == |parts|
  {
    Pairwise(before, PartLogs(slope, |parts|, parts, backward))
  }

  // The shards, each cut into the micro-batches its rank runs.
  ghost predicate IsCut(parts: seq<seq<seq<Datum>>>, shards: seq<seq<Datum>>, eff: Option<int>) {
    |parts| == |shards| && forall i :: 0 <= i < |shards| ==> shards[i] != [] && parts[i] == Micros(shards[i], ActorMicroSize(|shards[i]|, eff))
  }

  lemma {:induction false} CutCovers(parts: seq<seq<seq<Datum>>>, shards: seq<seq<Datum>>, eff: Option<int>)
    requires IsCut(parts, shards, eff)
    ensures Flatten(Flatten(parts)) == Flatten(shards)
  {
    if parts != [] {
      var n := |parts| - 1;
      CutCovers(parts[..n], shards[..n], eff);
      MicrosCover(shards[n], ActorMicroSize(|shards[n]|, eff));
      FlattenAppend(Flatten(parts[..n]), parts[n]);
    }
  }

  ghost predicate LockStep(logs: seq<seq<BackwardCall>>) {
    forall i :: 0 <= i < |logs| ==> |logs[i]| == |logs[0]|
  }

  // What a batch of rows comes to, row by row.
  datatype PerRow = PerRow(loss: Datum -> real, slope: Datum -> real, own: Datum -> seq<real>)

  // The per-row meaning that row-local networks give.
  ghost predicate IsPerRow(p: PerRow, netScore: Score, gradScore: Score, temp: real) {
    IsRowTerm(p.loss, netScore, temp) && IsRowTerm(p.slope, gradScore, temp) && IsOwnOutput(p.own, netScore, temp)
  }

  // Everything a call promises about well-formed rows.
  ghost predicate FullBatchResult(before: seq<seq<BackwardCall>>, after: seq<seq<BackwardCall>>, out: EngineOutput, p: PerRow, data: seq<Datum>, backward: bool) {
    && |after| == |before|
    && (LockStep(before) ==> LockStep(after))
    && OnePerDatum(out.logProbs, data)
    && (AllSettled(data) ==> ReducedBy(before, after, if backward then BatchTerm(p.slope, data) else 0.0))
    && (AllSettled(data) ==> ReportsLoss(out.metrics, -BatchTerm(p.loss, data)))
    && (AllTargeted(data) ==> out.logProbs == OwnOutputs(p.own, data))
  }

  ghost predicate ReportsLoss(metrics: map<string, real>, loss: real) {
    metrics.Keys == {"loss:sum"} && metrics["loss:sum"] == loss
  }

  // The ranks' common gradient went down by `amount`.
  ghost predicate ReducedBy(before: seq<seq<BackwardCall>>, after: seq<seq<BackwardCall>>, amount: real) {
    before != [] && after != [] && Reduced(after) == Reduced(before) - amount
  }

  // What the scoring functions need to satisfy for the full-batch result.
  ghost predicate RowWise(m: Meaning, p: PerRow) {
    AddsUp(m.loss, p.loss) && AddsUp(m.slope, p.slope) && ReturnsOwn(m.rows, p.own) && ReturnsOnePerDatum(m.rows)
  }

  lemma RowLocalIsRowWise(net: Network, netScore: Score, grad: Network, gradScore: Score, temp: real, m: Meaning, p: PerRow)
    requires Means(m, net, grad, temp) && RowLocal(net, netScore) && RowLocal(grad, gradScore) && IsPerRow(p, netScore, gradScore, temp)
    ensures RowWise(m, p)
  {
    SettledAddsUp(net, netScore, grad, gradScore, temp, m, p.loss, p.slope);
    TargetedReturnsOwn(net, netScore, grad, temp, m, p.own);
    MeaningReturnsOnePerDatum(net, grad, temp, m);
  }

  // ---------- The headline: micro-batching does not change the gradient ----------

  // For settled rows, the accumulated gradient and the reported loss are the
  // full-batch sums, whatever the micro-batch size.
  lemma GradientIgnoresMicroBatching(m: Meaning, p: PerRow, worldSize: nat, data: seq<Datum>, mb: nat)
    requires RowWise(m, p) && AllSettled(data) && mb > 0
    ensures Sum(BackwardLog(m.slope, worldSize, Micros(data, mb))) == Scaled(worldSize, -BatchTerm(p.slope, data))
    ensures LossTotal(m.loss, Micros(data, mb)) == -BatchTerm(p.loss, data)
  {
    MicrosCover(data, mb);
    LogIsScaledTotal(m.slope, worldSize, Micros(data, mb));
    LossTotalIsBatchTerm(m.slope, p.slope, Micros(data, mb));
    LossTotalIsBatchTerm(m.loss, p.loss, Micros(data, mb));
  }

  // What the engine asks of one shard.
  ghost predicate ShardReady(shard: seq<Datum>, keys: seq<string>) {
    shard != [] && AllValid(shard) && ValidRequest(shard, Some(keys))
  }

  ghost predicate AllReady(shards: seq<seq<Datum>>, keys: seq<string>) {
    shards == [] || (AllReady(shards[..|shards| - 1], keys) && ShardReady(shards[|shards| - 1], keys))
  }

  lemma {:induction false} ReadyAt(shards: seq<seq<Datum>>, keys: seq<string>, i: nat)
    requires AllReady(shards, keys) && i < |shards|
    ensures ShardReady(shards[i], keys)
  {
    if i < |shards| - 1 {
      ReadyAt(shards[..|shards| - 1], keys, i);
    }
  }

  ghost predicate FieldsBatch(data: seq<Datum>) {
    forall k :: Mentioned(data, k) && k !in FSDP_OWNED ==> Uniform(data, k)
  }

  // The whole request passed validation and `keys` are its fields.
  ghost predicate Validated(data: seq<Datum>, keys: seq<string>) {
    AllValid(data) && (forall k :: k in keys <==> Mentioned(data, k)) && FieldsBatch(data)
  }

  lemma {:induction false} AllShardsReady(data: seq<Datum>, keys: seq<string>, shards: seq<seq<Datum>>, k: nat)
    requires Validated(data, keys) && Flatten(shards) == data && k <= |shards|
    requires forall i :: 0 <= i < |shards| ==> shards[i] != []
    ensures AllReady(shards[..k], keys)
  {
    if k > 0 {
      AllShardsReady(data, keys, shards, k - 1);
      ShardIsReady(data, keys, shards, k - 1);
      assert shards[..k][..k - 1] == shards[..k - 1];
    }
  }

  method ValidateFields(data: seq<Datum>) returns (r: Result<seq<string>, FieldError>)
    requires AllValid(data)
    ensures r.Ok? <==> FieldsBatch(data)
    ensures r.Ok? ==> Validated(data, r.value)
  {
    r := ValidateClientInputs(data, FSDP_OWNED, {});
  }

  method Split(data: seq<Datum>, n: nat, keys: seq<string>) returns (shards: seq<seq<Datum>>)
    requires 0 < n <= |data| && Validated(data, keys)
    ensures |shards| == n && Flatten(shards) == data && AllReady(shards, keys)
  {
    var split := ShardList(data, n);
    shards := split.value;
    AllShardsReady(data, keys, shards, n);
    assert shards[..n] == shards;
  }

  // `parts` is what the ranks cut their shards into; each runs its own up to the first malformed micro-batch.
  method Forward(actors: seq<TrainModule>, net: Network, grad: Network, data: seq<Datum>, temperature: Option<real>,
                 configured: int, backward: bool, ghost m: Meaning, ghost p: PerRow)
    returns (r: Result<EngineOutput, ForwardError>, ghost parts: seq<seq<seq<Datum>>>)
    requires Means(m, net, grad, EffectiveTemperature(temperature)) && RowWise(m, p)
    requires actors != [] && Distinct(actors) && AllValid(data)
    modifies actors
    ensures data == [] ==> r == Ok(EngineOutput([], map[])) && Logs(actors) == old(Logs(actors))
    ensures r.Err? && r.error.Validation? <==> !FieldsBatch(data)
    ensures r.Err? && r.error.TooFewRows? <==> 0 < |data| < |actors| && FieldsBatch(data)
    ensures r.Err? && r.error.TooFewRows? ==> r.error == TooFewRows(|data|, |actors|)
    ensures r.Err? && !r.error.Engine? ==> Logs(actors) == old(Logs(actors))
    ensures data != [] && (r.Ok? || r.error.Engine?) ==>
              && (r.Ok? <==> RowsOk(data))
              && |parts| == |actors| && EqualParts(parts) && Flatten(Flatten(parts)) == data
              && Logs(actors) == ExtendedLogs(old(Logs(actors)), m.slope, RunsOf(parts), backward)
    ensures data != [] && r.Ok? ==> FullBatchResult(old(Logs(actors)), Logs(actors), r.value, p, data, backward)
  {
    parts := [];
    var validated := ValidateFields(data);
    if validated.Err? {
      return Err(Validation(validated.error)), parts;
    }
    if data == [] {
      return Ok(EngineOutput([], map[])), parts;
    }
    if |data| < |actors| {
      return Err(TooFewRows(|data|, |actors|)), parts;
    }
    var shards := Split(data, |actors|, validated.value);
    var out;
    out, parts := RunShards(actors, net, grad, data, shards, temperature, configured, backward, validated.value, m, p);
    r := if out.Ok? then Ok(out.value) else Err(Engine(out.error));
  }

  // ---------- Several calls before one optimizer step ----------

  // The temperature comes with each call's own loss_fn_config.
  datatype Call = Call(data: seq<Datum>, backward: bool, temperature: Option<real>)

  type CallResult = Result<EngineOutput, ForwardError>

  // The rows of the successful backward calls, in order.
  function Trained(calls: seq<Call>, rs: seq<CallResult>): seq<Datum>
    requires |calls| == |rs|
  {
    if calls == [] then []
    else Trained(calls[..|calls| - 1], rs[..|rs| - 1]) + RowsTrained(calls[|calls| - 1], rs[|rs| - 1])
  }

  function RowsTrained(call: Call, r: CallResult): seq<Datum> {
    if call.backward && r.Ok? then call.data else []
  }

  // What rows come to at each temperature.
  type Terms = real -> PerRow

  // Every row trained, at the temperature of its own call.
  function TrainedTerm(terms: Terms, calls: seq<Call>, rs: seq<CallResult>): real
    requires |calls| == |rs|
  {
    if calls == [] then 0.0
    else
      var call := calls[|calls| - 1];
      TrainedTerm(terms, calls[..|calls| - 1], rs[..|rs| - 1]) + CallTerm(terms, call, rs[|rs| - 1])
  }

  function CallTerm(terms: Terms, call: Call, r: CallResult): real {
    BatchTerm(terms(EffectiveTemperature(call.temperature)).slope, RowsTrained(call, r))
  }

  // Calls at one temperature come to one batch of all their rows.
  lemma {:induction false} OneTemperatureOneBatch(terms: Terms, temp: real, calls: seq<Call>, rs: seq<CallResult>)
    requires |calls| == |rs| && forall i :: 0 <= i < |calls| ==> EffectiveTemperature(calls[i].temperature) == temp
    ensures TrainedTerm(terms, calls, rs) == BatchTerm(terms(temp).slope, Trained(calls, rs))
  {
    if calls != [] {
      var n := |calls| - 1;
      OneTemperatureOneBatch(terms, temp, calls[..n], rs[..n]);
      BatchTermAppend(terms(temp).slope, Trained(calls[..n], rs[..n]), RowsTrained(calls[n], rs[n]));
    }
  }

  // Scoring at every temperature.
  ghost predicate RowWiseAtAll(ms: real -> Meaning, terms: Terms, net: Network, grad: Network) {
    forall temp {:trigger ms(temp)} :: Means(ms(temp), net, grad, temp) && RowWise(ms(temp), terms(temp))
  }

  // No call failed on its way through the micro-batches.
  ghost predicate NoneHalfDone(rs: seq<CallResult>) {
    forall i :: 0 <= i < |rs| ==> !HalfDone(rs[i])
  }

  ghost predicate HalfDone(r: CallResult) {
    r.Err? && r.error.Engine?
  }

  // The gradient is that of all the rows trained.
  ghost predicate AddsUpOverCalls(before: seq<seq<BackwardCall>>, after: seq<seq<BackwardCall>>, terms: Terms, calls: seq<Call>, rs: seq<CallResult>) {
    && |calls| == |rs|
    && (NoneHalfDone(rs) ==> Moves(before, after, TrainedTerm(terms, calls, rs), Trained(calls, rs)))
  }

  // The common gradient goes down by this amount if the rows are settled, and ranks in step stay in step.
  ghost predicate Moves(before: seq<seq<BackwardCall>>, after: seq<seq<BackwardCall>>, amount: real, rows: seq<Datum>) {
    && (LockStep(before) ==> LockStep(after))
    && (AllSettled(rows) ==> ReducedBy(before, after, amount))
  }

  // However the rows are dealt out to calls, and whatever the other calls do as long as they
  // fail, if they fail, before the first micro-batch; each call has its own temperature.
  method Accumulate(actors: seq<TrainModule>, net: Network, grad: Network, calls: seq<Call>, configured: int,
                    ghost ms: real -> Meaning, ghost terms: Terms)
    returns (rs: seq<CallResult>)
    requires RowWiseAtAll(ms, terms, net, grad)
    requires actors != [] && Distinct(actors) && AllCallsValid(calls)
    modifies actors
    ensures AddsUpOverCalls(old(Logs(actors)), Logs(actors), terms, calls, rs)
  {
    rs := [];
    ghost var start := Logs(actors);
    assert calls[..0] == [];
    for i := 0 to |calls|
      invariant AddsUpOverCalls(start, Logs(actors), terms, calls[..i], rs)
    {
      CallsUpTo(calls, i);
      ghost var before := Logs(actors);
      var r := CallOnce(actors, net, grad, calls[i], configured, ms, terms);
      OneMoreCall(start, before, Logs(actors), terms, calls[..i], rs, calls[i], r);
      rs := rs + [r];
    }
    assert calls[..|calls|] == calls;
  }

  method CallOnce(actors: seq<TrainModule>, net: Network, grad: Network, call: Call, configured: int,
                  ghost ms: real -> Meaning, ghost terms: Terms)
    returns (r: CallResult)
    requires RowWiseAtAll(ms, terms, net, grad)
    requires actors != [] && Distinct(actors) && AllValid(call.data)
    modifies actors
    ensures !HalfDone(r) ==> Moves(old(Logs(actors)), Logs(actors), CallTerm(terms, call, r), RowsTrained(call, r))
  {
    ghost var before := Logs(actors);
    ghost var m, p := ms(EffectiveTemperature(call.temperature)), terms(EffectiveTemperature(call.temperature));
    ghost var parts;
    r, parts := Forward(actors, net, grad, call.data, call.temperature, configured, call.backward, m, p);
    if !HalfDone(r) {
      OneCallMoves(before, Logs(actors), m, p, call, r, parts);
    }
  }

  ghost predicate AllCallsValid(calls: seq<Call>) {
    forall i :: 0 <= i < |calls| ==> AllValid(calls[i].data)
  }

  lemma CallsUpTo(calls: seq<Call>, i: nat)
    requires i < |calls| && AllCallsValid(calls)
    ensures calls[..i] + [calls[i]] == calls[..i + 1] && AllValid(calls[i].data)
  {
  }

  // What Forward promises of a call that is not half done.
  ghost predicate CallDone(before: seq<seq<BackwardCall>>, after: seq<seq<BackwardCall>>, m: Meaning, p: PerRow, call: Call, r: CallResult,
                           parts: seq<seq<seq<Datum>>>)
  {
    if call.data == [] || r.Err? then after == before
    else
      && FullBatchResult(before, after, r.value, p, call.data, call.backward)
      && |parts| == |before| && after == ExtendedLogs(before, m.slope, RunsOf(parts), call.backward)
  }

  lemma OneCallMoves(before: seq<seq<BackwardCall>>, after: seq<seq<BackwardCall>>, m: Meaning, p: PerRow, call: Call, r: CallResult,
                     parts: seq<seq<seq<Datum>>>)
    requires before != [] && CallDone(before, after, m, p, call, r, parts)
    ensures Moves(before, after, BatchTerm(p.slope, RowsTrained(call, r)), RowsTrained(call, r))
  {
    if call.data != [] && r.Ok? && !call.backward {
      EvaluationMovesNothing(before, after, m.slope, RunsOf(parts));
    }
  }

  lemma EvaluationMovesNothing(before: seq<seq<BackwardCall>>, after: seq<seq<BackwardCall>>, slope: seq<Datum> -> real, runs: seq<seq<seq<Datum>>>)
    requires before != [] && |runs| == |before| && after == ExtendedLogs(before, slope, runs, false)
    ensures ReducedBy(before, after, 0.0)
  {
    ReducedGradient(before, slope, runs, false);
  }

  lemma OneMoreCall(start: seq<seq<BackwardCall>>, before: seq<seq<BackwardCall>>, after: seq<seq<BackwardCall>>, terms: Terms,
                    calls: seq<Call>, rs: seq<CallResult>, call: Call, r: CallResult)
    requires AddsUpOverCalls(start, before, terms, calls, rs)
    requires !HalfDone(r) ==> Moves(before, after, CallTerm(terms, call, r), RowsTrained(call, r))
    ensures AddsUpOverCalls(start, after, terms, calls + [call], rs + [r])
  {
    if NoneHalfDone(rs + [r]) {
      assert (rs + [r])[|rs|] == r && (rs + [r])[..|rs|] == rs && (calls + [call])[..|calls|] == calls;
      assert forall i :: 0 <= i < |rs| ==> rs[i] == (rs + [r])[i];
      var done, rows := Trained(calls, rs), RowsTrained(call, r);
      assert Trained(calls + [call], rs + [r]) == done + rows;
      assert TrainedTerm(terms, calls + [call], rs + [r]) == TrainedTerm(terms, calls, rs) + CallTerm(terms, call, r);
      if AllSettled(done + rows) {
        SettledParts(done, rows);
      }
    }
  }

  // ---------- The ranks' part of a call ----------

  method RunShards(actors: seq<TrainModule>, net: Network, grad: Network, ghost data: seq<Datum>, shards: seq<seq<Datum>>,
                   temperature: Option<real>, configured: int, backward: bool, keys: seq<string>, ghost m: Meaning, ghost p: PerRow)
    returns (r: Result<EngineOutput, EngineError>, ghost parts: seq<seq<seq<Datum>>>)
    requires Means(m, net, grad, EffectiveTemperature(temperature)) && RowWise(m, p)
    requires actors != [] && Distinct(actors) && |shards| == |actors| && Flatten(shards) == data
    requires AllReady(shards, keys)
    modifies actors
    ensures |parts| == |actors| && EqualParts(parts) && Flatten(Flatten(parts)) == data
    ensures Logs(actors) == ExtendedLogs(old(Logs(actors)), m.slope, RunsOf(parts), backward)
    ensures r.Ok? <==> RowsOk(data)
    ensures r.Ok? ==> FullBatchResult(old(Logs(actors)), Logs(actors), r.value, p, data, backward)
  {
    var eff := EffectiveMicroSize(shards, configured);
    ghost var before := Logs(actors);
    parts := CutShards(shards, keys, configured, eff);
    ReadyCutsAreAll(shards, parts, keys, eff);
    r := RunAndJoin(actors, net, grad, shards, temperature, eff, backward, keys, m, parts);
    RowsOkByShard(shards);
    if r.Ok? {
      WellFormedRunWhole(shards, parts, eff);
      ForwardMeetsSpec(before, Logs(actors), r.value, m, p, data, parts, backward);
    }
  }

  method RunAndJoin(actors: seq<TrainModule>, net: Network, grad: Network, shards: seq<seq<Datum>>, temperature: Option<real>,
                    eff: Option<int>, backward: bool, keys: seq<string>, ghost m: Meaning, ghost parts: seq<seq<seq<Datum>>>)
    returns (r: Result<EngineOutput, EngineError>)
    requires Means(m, net, grad, EffectiveTemperature(temperature))
    requires Distinct(actors) && |shards| == |actors| == |parts|
    requires AllCut(shards, parts, keys, eff)
    modifies actors
    ensures Logs(actors) == ExtendedLogs(old(Logs(actors)), m.slope, RunsOf(parts), backward)
    ensures r.Ok? <==> forall i :: 0 <= i < |shards| ==> RowsOk(shards[i])
    ensures r.Ok? ==> r.value == PartOutput(m, Flatten(parts))
  {
    ghost var before := Logs(actors);
    ghost var logs := PartLogs(m.slope, |shards|, RunsOf(parts), backward);
    var results := RunParts(actors, net, grad, shards, temperature, eff, backward, keys, m, parts, logs);
    assert Logs(actors) == ExtendedLogs(before, m.slope, RunsOf(parts), backward);
    r := Collect(results, m, shards, parts);
  }

  method Collect(results: seq<Result<EngineOutput, EngineError>>, ghost m: Meaning, ghost shards: seq<seq<Datum>>, ghost parts: seq<seq<seq<Datum>>>)
    returns (r: Result<EngineOutput, EngineError>)
    requires |results| == |shards| == |parts| && AllAnswer(results, m, shards, parts)
    ensures r.Ok? <==> forall i :: 0 <= i < |shards| ==> RowsOk(shards[i])
    ensures r.Ok? ==> r.value == PartOutput(m, Flatten(parts))
  {
    var all := Gather(results, m, shards, parts);
    if all.Err? {
      return Err(all.error);
    }
    var out := JoinResults(all.value, m, parts);
    r := Ok(out);
  }

  // ray.get: every answer, or the error of a rank that failed.
  method Gather(results: seq<Result<EngineOutput, EngineError>>, ghost m: Meaning, ghost shards: seq<seq<Datum>>, ghost parts: seq<seq<seq<Datum>>>)
    returns (all: Result<seq<EngineOutput>, EngineError>)
    requires |results| == |shards| == |parts| && AllAnswer(results, m, shards, parts)
    ensures all.Ok? <==> forall i :: 0 <= i < |shards| ==> RowsOk(shards[i])
    ensures all.Ok? ==> |all.value| == |parts| && forall j :: 0 <= j < |parts| ==> all.value[j] == PartOutput(m, parts[j])
  {
    var outs: seq<EngineOutput> := [];
    for i := 0 to |results|
      invariant |outs| == i && forall j :: 0 <= j < i ==> RowsOk(shards[j]) && outs[j] == PartOutput(m, parts[j])
    {
      AnswerAt(results, m, shards, parts, i);
      if results[i].Err? {
        return Err(results[i].error);
      }
      outs := outs + [results[i].value];
    }
    all := Ok(outs);
  }

  // What each rank runs: its micro-batches before the first malformed one.
  function RunsOf(parts: seq<seq<seq<Datum>>>): (runs: seq<seq<seq<Datum>>>)
    ensures |runs| == |parts| && forall i :: 0 <= i < |parts| ==> runs[i] == GoodPrefix(parts[i])
  {
    if parts == [] then [] else RunsOf(parts[..|parts| - 1]) + [GoodPrefix(parts[|parts| - 1])]
  }

  lemma {:induction false} RowsOkByShard(shards: seq<seq<Datum>>)
    ensures RowsOk(Flatten(shards)) <==> forall i :: 0 <= i < |shards| ==> RowsOk(shards[i])
  {
    if shards != [] {
      var init, last := shards[..|shards| - 1], shards[|shards| - 1];
      RowsOkByShard(init);
      RowsOkJoin(Flatten(init), last);
      if forall i :: 0 <= i < |init| ==> RowsOk(init[i]) {
      } else {
        var i :| 0 <= i < |init| && !RowsOk(init[i]);
        assert shards[i] == init[i];
      }
    }
  }

  lemma RowsOkJoin(a: seq<Datum>, b: seq<Datum>)
    ensures RowsOk(a + b) <==> RowsOk(a) && RowsOk(b)
  {
    if RowsOk(a + b) {
      RowsOkPart(a + b, 0, |a|, a);
      RowsOkPart(a + b, |a|, |a + b|, b);
    }
  }

  lemma WellFormedRunWhole(shards: seq<seq<Datum>>, parts: seq<seq<seq<Datum>>>, eff: Option<int>)
    requires IsCut(parts, shards, eff) && forall i :: 0 <= i < |shards| ==> RowsOk(shards[i])
    ensures RunsOf(parts) == parts
  {
    forall i | 0 <= i < |parts|
      ensures GoodPrefix(parts[i]) == parts[i]
    {
      MicrosCover(shards[i], ActorMicroSize(|shards[i]|, eff));
      GoodWhenAllOk(shards[i], parts[i]);
    }
  }

  // `parts` are the shards as each rank cuts them; every shard is ready for its rank.
  ghost predicate AllCut(shards: seq<seq<Datum>>, parts: seq<seq<seq<Datum>>>, keys: seq<string>, eff: Option<int>)
    requires |shards| == |parts|
  {
    var n := |shards| - 1;
    shards == [] || (AllCut(shards[..n], parts[..n], keys, eff) && CutOne(shards[n], parts[n], keys, eff))
  }

  ghost predicate CutOne(shard: seq<Datum>, part: seq<seq<Datum>>, keys: seq<string>, eff: Option<int>) {
    ShardReady(shard, keys) && part == Micros(shard, ActorMicroSize(|shard|, eff))
  }

  lemma {:induction false} CutAt(shards: seq<seq<Datum>>, parts: seq<seq<seq<Datum>>>, keys: seq<string>, eff: Option<int>, i: nat)
    requires |shards| == |parts| && AllCut(shards, parts, keys, eff) && i < |shards|
    ensures CutOne(shards[i], parts[i], keys, eff)
  {
    var n := |shards| - 1;
    if i < n {
      CutAt(shards[..n], parts[..n], keys, eff, i);
    }
  }

  lemma {:induction false} ReadyCutsAreAll(shards: seq<seq<Datum>>, parts: seq<seq<seq<Datum>>>, keys: seq<string>, eff: Option<int>)
    requires AllReady(shards, keys) && IsCut(parts, shards, eff)
    ensures AllCut(shards, parts, keys, eff)
  {
    if shards != [] {
      var n := |shards| - 1;
      ReadyCutsAreAll(shards[..n], parts[..n], keys, eff);
    }
  }

  function PartOutput(m: Meaning, part: seq<seq<Datum>>): EngineOutput {
    EngineOutput(OutputsOf(m.rows, part), map["loss:sum" := LossTotal(m.loss, part)])
  }

  // Hands every actor its shard and collects the results in rank order.
  method RunParts(actors: seq<TrainModule>, net: Network, grad: Network, shards: seq<seq<Datum>>, temperature: Option<real>,
                  eff: Option<int>, backward: bool, keys: seq<string>, ghost m: Meaning, ghost parts: seq<seq<seq<Datum>>>,
                  ghost logs: seq<seq<BackwardCall>>)
    returns (results: seq<Result<EngineOutput, EngineError>>)
    requires Means(m, net, grad, EffectiveTemperature(temperature))
    requires Distinct(actors) && |shards| == |actors| == |parts|
    requires AllCut(shards, parts, keys, eff)
    modifies actors
    requires logs == PartLogs(m.slope, |shards|, RunsOf(parts), backward)
    ensures Logs(actors) == Pairwise(old(Logs(actors)), logs)
    ensures |results| == |parts| && AllAnswer(results, m, shards, parts)
  {
    ghost var before, now := Logs(actors), Logs(actors);
    results := [];
    for i := 0 to |actors|
      invariant |results| == i && AllAnswer(results, m, shards, parts)
      invariant now == Logs(actors) && Underway(before, logs, now, i)
    {
      results := RunShard(actors, net, grad, shards, i, temperature, eff, backward, keys, results, m, parts, logs);
      NextUnderway(before, logs, now, i);
      now := Logs(actors);
    }
    AllExtended(before, logs, now);
  }

  // The first ranks' answers are right.
  ghost predicate AllAnswer(results: seq<Result<EngineOutput, EngineError>>, m: Meaning, shards: seq<seq<Datum>>, parts: seq<seq<seq<Datum>>>)
    requires |results| <= |shards| == |parts|
  {
    var n := |results| - 1;
    results == [] || (AllAnswer(results[..n], m, shards, parts) && Answers(results[n], m, shards[n], parts[n]))
  }

  lemma NextAnswer(results: seq<Result<EngineOutput, EngineError>>, r: Result<EngineOutput, EngineError>, m: Meaning,
                   shards: seq<seq<Datum>>, parts: seq<seq<seq<Datum>>>)
    requires |results| < |shards| == |parts| && AllAnswer(results, m, shards, parts)
    requires Answers(r, m, shards[|results|], parts[|results|])
    ensures AllAnswer(results + [r], m, shards, parts)
  {
    assert (results + [r])[..|results|] == results;
  }

  lemma {:induction false} AnswerAt(results: seq<Result<EngineOutput, EngineError>>, m: Meaning, shards: seq<seq<Datum>>,
                                    parts: seq<seq<seq<Datum>>>, i: nat)
    requires i < |results| <= |shards| == |parts| && AllAnswer(results, m, shards, parts)
    ensures Answers(results[i], m, shards[i], parts[i])
  {
    if i < |results| - 1 {
      AnswerAt(results[..|results| - 1], m, shards, parts, i);
    }
  }

  // Joins the outputs in rank order and adds up the losses.
  method JoinResults(results: seq<EngineOutput>, ghost m: Meaning, ghost parts: seq<seq<seq<Datum>>>) returns (out: EngineOutput)
    requires |results| == |parts| && forall j :: 0 <= j < |parts| ==> results[j] == PartOutput(m, parts[j])
    ensures out == PartOutput(m, Flatten(parts))
  {
    var outputs: seq<seq<real>> := [];
    var loss := 0.0;
    for i := 0 to |results|
      invariant outputs == OutputsOf(m.rows, Flatten(parts[..i]))
      invariant loss == LossTotal(m.loss, Flatten(parts[..i]))
    {
      FlattenStep(parts, i);
      ScoresAppend(m, Flatten(parts[..i]), parts[i]);
      outputs := outputs + results[i].logProbs;
      loss := loss + results[i].metrics["loss:sum"];
    }
    assert parts[..|results|] == parts;
    out := EngineOutput(outputs, map["loss:sum" := loss]);
  }

  // The micro-batches every rank will run, rank by rank.
  lemma CutShards(shards: seq<seq<Datum>>, keys: seq<string>, configured: int, eff: Option<int>) returns (parts: seq<seq<seq<Datum>>>)
    requires AllReady(shards, keys)
    requires eff == if configured > 0 && DividesAll(shards, configured) && SameCounts(shards, configured)
                       && (exists i :: 0 <= i < |shards| && shards[i] != [])
                    then Some(configured) else None
    ensures IsCut(parts, shards, eff) && EqualParts(parts) && Flatten(Flatten(parts)) == Flatten(shards)
  {
    forall i | 0 <= i < |shards| ensures shards[i] != [] { ReadyAt(shards, keys, i); }
    parts := seq(|shards|, i requires 0 <= i < |shards| => Micros(shards[i], ActorMicroSize(|shards[i]|, eff)));
    CutCovers(parts, shards, eff);
    CutsAreEqual(shards, parts, configured, eff);
  }

  // The first i ranks have extended their logs.
  ghost predicate Underway(before: seq<seq<BackwardCall>>, added: seq<seq<BackwardCall>>, now: seq<seq<BackwardCall>>, i: int)
  {
    |now| == |before| == |added| && forall j :: 0 <= j < |now| ==> now[j] == if j < i then before[j] + added[j] else before[j]
  }

  lemma NextUnderway(before: seq<seq<BackwardCall>>, added: seq<seq<BackwardCall>>, now: seq<seq<BackwardCall>>, i: nat)
    requires Underway(before, added, now, i) && i < |now|
    ensures Underway(before, added, now[i := now[i] + added[i]], i + 1)
  {
  }

  lemma AllExtended(before: seq<seq<BackwardCall>>, added: seq<seq<BackwardCall>>, now: seq<seq<BackwardCall>>)
    requires Underway(before, added, now, |before|)
    ensures now == Pairwise(before, added)
  {
  }

  method RunShard(actors: seq<TrainModule>, net: Network, grad: Network, shards: seq<seq<Datum>>, i: nat, temperature: Option<real>,
                  eff: Option<int>, backward: bool, keys: seq<string>, results: seq<Result<EngineOutput, EngineError>>,
                  ghost m: Meaning, ghost parts: seq<seq<seq<Datum>>>, ghost logs: seq<seq<BackwardCall>>)
    returns (results': seq<Result<EngineOutput, EngineError>>)
    requires Means(m, net, grad, EffectiveTemperature(temperature))
    requires Distinct(actors) && |results| == i < |actors| == |shards| == |parts| && AllCut(shards, parts, keys, eff)
    requires logs == PartLogs(m.slope, |shards|, RunsOf(parts), backward) && AllAnswer(results, m, shards, parts)
    modifies actors[i]
    ensures Logs(actors) == old(Logs(actors))[i := old(Logs(actors))[i] + logs[i]]
    ensures |results'| == i + 1 && AllAnswer(results', m, shards, parts)
  {
    CutAt(shards, parts, keys, eff, i);
    var r := RunRank(actors, i, net, grad, shards[i], temperature, eff, |shards|, backward, keys, m, parts[i], logs[i]);
    NextAnswer(results, r, m, shards, parts);
    results' := results + [r];
  }

  // One rank's turn, seen among all ranks.
  method RunRank(actors: seq<TrainModule>, i: nat, net: Network, grad: Network, shard: seq<Datum>, temperature: Option<real>,
                 eff: Option<int>, worldSize: nat, backward: bool, keys: seq<string>, ghost m: Meaning, ghost part: seq<seq<Datum>>,
                 ghost log: seq<BackwardCall>)
    returns (r: Result<EngineOutput, EngineError>)
    requires Means(m, net, grad, EffectiveTemperature(temperature)) && Distinct(actors) && i < |actors|
    requires ShardReady(shard, keys) && part == Micros(shard, ActorMicroSize(|shard|, eff))
    requires log == PartLog(m.slope, worldSize, GoodPrefix(part), backward)
    modifies actors[i]
    ensures Logs(actors) == old(Logs(actors))[i := old(Logs(actors))[i] + log]
    ensures Answers(r, m, shard, part)
  {
    ghost var before := Logs(actors);
    r := ActorForwardBackward(actors[i], net, grad, shard, temperature, eff, worldSize, backward, keys, m, part);
    assert Logs(actors) == before[i := before[i] + log];
  }


  lemma {:induction false} ScoresAppend(m: Meaning, a: seq<seq<Datum>>, b: seq<seq<Datum>>)
    ensures OutputsOf(m.rows, a + b) == OutputsOf(m.rows, a) + OutputsOf(m.rows, b)
    ensures LossTotal(m.loss, a + b) == LossTotal(m.loss, a) + LossTotal(m.loss, b)
    ensures LossTotal(m.slope, a + b) == LossTotal(m.slope, a) + LossTotal(m.slope, b)
  {
    if b == [] {
      assert a + b == a;
    } else {
      ScoresAppend(m, a, b[..|b| - 1]);
      assert (a + b)[..|a + b| - 1] == a + b[..|b| - 1];
    }
  }

  lemma ShardIsReady(data: seq<Datum>, keys: seq<string>, shards: seq<seq<Datum>>, i: nat)
    requires Validated(data, keys) && Flatten(shards) == data && i < |shards| && shards[i] != []
    ensures ShardReady(shards[i], keys)
  {
    var lo := ShardOffset(shards, i);
    ShardIsValid(data, keys, lo, lo + |shards[i]|, shards[i]);
  }

  lemma ShardOffset(shards: seq<seq<Datum>>, i: nat) returns (lo: nat)
    requires i < |shards| && shards[i] != []
    ensures lo + |shards[i]| <= |Flatten(shards)| && shards[i] == Flatten(shards)[lo..lo + |shards[i]|]
  {
    lo := |Flatten(shards[..i])|;
    FlattenIndex(shards, i, |shards[i]| - 1);
    forall j | 0 <= j < |shards[i]|
      ensures Flatten(shards)[lo + j] == shards[i][j]
    {
      FlattenIndex(shards, i, j);
    }
  }

  lemma RowsOkPart(data: seq<Datum>, lo: nat, hi: nat, part: seq<Datum>)
    requires RowsOk(data) && lo <= hi <= |data| && part == data[lo..hi]
    ensures RowsOk(part)
  {
  }

  ghost predicate EqualParts(parts: seq<seq<seq<Datum>>>) {
    forall i :: 0 <= i < |parts| ==> |parts[i]| == |parts[0]|
  }

  // Every rank runs the same number of micro-batches.
  lemma CutsAreEqual(shards: seq<seq<Datum>>, parts: seq<seq<seq<Datum>>>, configured: int, eff: Option<int>)
    requires IsCut(parts, shards, eff)
    requires eff == if configured > 0 && DividesAll(shards, configured) && SameCounts(shards, configured)
                       && (exists i :: 0 <= i < |shards| && shards[i] != [])
                    then Some(configured) else None
    ensures EqualParts(parts)
  {
    if shards != [] {
      assert shards[0] != [];
      RanksInLockStep(shards, configured, eff);
    }
  }

  lemma ForwardMeetsSpec(before: seq<seq<BackwardCall>>, after: seq<seq<BackwardCall>>, out: EngineOutput,
                         m: Meaning, p: PerRow, data: seq<Datum>, parts: seq<seq<seq<Datum>>>, backward: bool)
    requires RowWise(m, p) && parts != [] && |before| == |parts|
    requires EqualParts(parts) && Flatten(Flatten(parts)) == data
    requires after == ExtendedLogs(before, m.slope, parts, backward) && out == PartOutput(m, Flatten(parts))
    ensures FullBatchResult(before, after, out, p, data, backward)
  {
    if LockStep(before) {
      InStepExactlyWhenRunsAreEqual(before, m.slope, parts);
    }
    FullBatchOfParts(before, m, p, data, parts, backward);
  }

  // The size used without Ray: the configured one only when it divides the batch.
  function AloneMicroSize(len: nat, configured: int): (mb: nat)
    ensures mb > 0 && (len > 0 ==> len % mb == 0)
    ensures configured > 0 && len > 0 ==> (mb == configured <==> len % configured == 0)
    ensures len > 0 && mb != len ==> mb == configured
  {
    if configured > 0 && len % configured == 0 then configured else if len > 1 then len else 1
  }

  // A call runs the documented ceil(len / mb) micro-batches exactly when the size divides
  // the batch or covers it.
  lemma AloneSplitsAsDocumentedExactly(data: seq<Datum>, mb: nat)
    requires data != [] && mb > 0
    ensures |Micros(data, AloneMicroSize(|data|, mb))| == CeilDiv(|data|, mb) <==> |data| % mb == 0 || mb >= |data|
  {
    MicrosDivide(data, AloneMicroSize(|data|, mb));
    CountIsCeilingExactly(|data|, mb, AloneMicroSize(|data|, mb));
  }

  // Five rows with size two run as one micro-batch, not three.
  lemma FiveRowsBySizeTwo(data: seq<Datum>)
    requires |data| == 5
    ensures |Micros(data, AloneMicroSize(5, 2))| == 1 && CeilDiv(5, 2) == 3
  {
    AloneSplitsAsDocumentedExactly(data, 2);
    MicrosDivide(data, 5);
  }

  // FSDPTrainingBackend.forward with its own worker in the process: rows may be
  // malformed here, and no other rank is left waiting for them.
  method ForwardAlone(module_: TrainModule, net: Network, grad: Network, data: seq<Datum>, temperature: Option<real>,
                      configured: int, backward: bool, ghost m: Meaning, ghost p: PerRow)
    returns (r: Result<EngineOutput, ForwardError>)
    requires Means(m, net, grad, EffectiveTemperature(temperature)) && RowWise(m, p)
    requires AllValid(data)
    modifies module_
    ensures data == [] ==> r == Ok(EngineOutput([], map[])) && module_.backwards == old(module_.backwards)
    ensures r.Err? && r.error.Validation? <==> !FieldsBatch(data)
    ensures r.Err? ==> r.error.Validation? || r.error.Engine?
    ensures r.Err? && r.error.Validation? ==> module_.backwards == old(module_.backwards)
    ensures r.Err? && r.error.Engine? <==> FieldsBatch(data) && !RowsOk(data)
    ensures r.Err? && r.error.Engine? ==>
              module_.backwards == old(module_.backwards)
                + PartLog(m.slope, 1, GoodPrefix(Micros(data, AloneMicroSize(|data|, configured))), backward)
    ensures data != [] && r.Ok? ==> FullBatchResult([old(module_.backwards)], [module_.backwards], r.value, p, data, backward)
  {
    var validated := ValidateFields(data);
    if validated.Err? {
      return Err(Validation(validated.error));
    }
    ghost var before := module_.backwards;
    var mb := AloneMicroSize(|data|, configured);
    var out := ForwardBackward(module_, net, grad, data, temperature, mb, 1, !backward, Some(validated.value), m);
    if out.Err? {
      return Err(Engine(out.error));
    }
    if data != [] {
      AloneMeetsSpec(before, module_.backwards, out.value, m, p, data, mb, backward);
    }
    r := Ok(out.value);
  }

  lemma AloneMeetsSpec(before: seq<BackwardCall>, after: seq<BackwardCall>, out: EngineOutput, m: Meaning, p: PerRow,
                       data: seq<Datum>, mb: nat, backward: bool)
    requires RowWise(m, p) && RowsOk(data) && mb > 0
    requires after == before + PartLog(m.slope, 1, GoodPrefix(Micros(data, mb)), backward) && out == PartOutput(m, Micros(data, mb))
    ensures FullBatchResult([before], [after], out, p, data, backward)
  {
    var part := Micros(data, mb);
    MicrosCover(data, mb);
    GoodWhenAllOk(data, part);
    FlattenOne(part);
    assert [after] == ExtendedLogs([before], m.slope, [part], backward);
    ForwardMeetsSpec([before], [after], out, m, p, data, [part], backward);
  }

  // Ranks that were in step stay so exactly when they run equally many micro-batches.
  lemma InStepExactlyWhenRunsAreEqual(before: seq<seq<BackwardCall>>, slope: seq<Datum> -> real, runs: seq<seq<seq<Datum>>>)
    requires |before| == |runs| && LockStep(before)
    ensures LockStep(ExtendedLogs(before, slope, runs, true)) <==> EqualParts(runs)
    ensures LockStep(ExtendedLogs(before, slope, runs, false))
  {
    forall i | 0 <= i < |runs|
      ensures |PartLog(slope, |runs|, runs[i], true)| == |runs[i]|
    {
      LogLength(slope, |runs|, runs[i]);
    }
    var after := ExtendedLogs(before, slope, runs, true);
    assert forall i :: 0 <= i < |runs| ==> |after[i]| == |before[i]| + |runs[i]|;
    assert forall i :: 0 <= i < |runs| ==> |before[i]| == |before[0]|;
  }

  lemma FullBatchOfParts(before: seq<seq<BackwardCall>>, m: Meaning, p: PerRow, data: seq<Datum>, parts: seq<seq<seq<Datum>>>, backward: bool)
    requires RowWise(m, p) && parts != [] && |before| == |parts| && Flatten(Flatten(parts)) == data
    ensures OnePerDatum(OutputsOf(m.rows, Flatten(parts)), data)
    ensures AllTargeted(data) ==> OutputsOf(m.rows, Flatten(parts)) == OwnOutputs(p.own, data)
    ensures AllSettled(data) ==> ReportsLoss(map["loss:sum" := LossTotal(m.loss, Flatten(parts))], -BatchTerm(p.loss, data))
    ensures AllSettled(data) ==>
              ReducedBy(before, ExtendedLogs(before, m.slope, parts, backward), if backward then BatchTerm(p.slope, data) else 0.0)
  {
    OutputsPerDatum(m.rows, Flatten(parts));
    ReducedGradient(before, m.slope, parts, backward);
    if AllSettled(data) {
      LossTotalIsBatchTerm(m.loss, p.loss, Flatten(parts));
      LossTotalIsBatchTerm(m.slope, p.slope, Flatten(parts));
    }
    if AllTargeted(data) {
      OutputsAreOwn(m.rows, p.own, Flatten(parts));
    }
  }

  // Averaging over ranks undoes the scaling: the common gradient moves by the plain sum of all slopes.
  lemma ReducedGradient(before: seq<seq<BackwardCall>>, slope: seq<Datum> -> real, parts: seq<seq<seq<Datum>>>, backward: bool)
    requires parts != [] && |before| == |parts|
    ensures Reduced(ExtendedLogs(before, slope, parts, backward))
         == Reduced(before) + if backward then LossTotal(slope, Flatten(parts)) else 0.0
  {
    var added := PartLogs(slope, |parts|, parts, backward);
    PairwiseTotal(before, added);
    if backward {
      PartLogsTotal(slope, |parts|, parts);
      ScaleAndAverage(TotalOf(before), LossTotal(slope, Flatten(parts)), |parts|, TotalOf(ExtendedLogs(before, slope, parts, true)));
    } else {
      EmptyLogsTotal(added);
    }
  }

  lemma {:induction false} PairwiseTotal(a: seq<seq<BackwardCall>>, b: seq<seq<BackwardCall>>)
    requires |a| == |b|
    ensures TotalOf(Pairwise(a, b)) == TotalOf(a) + TotalOf(b)
  {
    if a != [] {
      PairwiseTotal(a[..|a| - 1], b[..|b| - 1]);
      SumAppend(a[|a| - 1], b[|b| - 1]);
      assert Pairwise(a, b)[..|a| - 1] == Pairwise(a[..|a| - 1], b[..|b| - 1]);
    }
  }

  lemma {:induction false} EmptyLogsTotal(logs: seq<seq<BackwardCall>>)
    requires forall i :: 0 <= i < |logs| ==> logs[i] == []
    ensures TotalOf(logs) == 0.0
  {
    if logs != [] {
      EmptyLogsTotal(logs[..|logs| - 1]);
    }
  }

  lemma {:induction false} PartLogsTotal(slope: seq<Datum> -> real, worldSize: nat, parts: seq<seq<seq<Datum>>>)
    ensures TotalOf(PartLogs(slope, worldSize, parts, true)) == Scaled(worldSize, LossTotal(slope, Flatten(parts)))
  {
    if parts == [] {
      ScaledZero(worldSize);
    } else {
      var init, last := parts[..|parts| - 1], parts[|parts| - 1];
      var logs := PartLogs(slope, worldSize, parts, true);
      assert logs[..|logs| - 1] == PartLogs(slope, worldSize, init, true);
      PartLogsTotal(slope, worldSize, init);
      LogIsScaledTotal(slope, worldSize, last);
      ScoresAppend(Meaning(slope, slope, _ => []), Flatten(init), last);
      ScaledAdd(worldSize, LossTotal(slope, Flatten(init)), LossTotal(slope, last), LossTotal(slope, Flatten(parts)));
    }
  }

  lemma {:induction false} LogLength(slope: seq<Datum> -> real, worldSize: nat, ms: seq<seq<Datum>>)
    ensures |BackwardLog(slope, worldSize, ms)| == |ms|
  {
    if ms != [] {
      LogLength(slope, worldSize, ms[..|ms| - 1]);
    }
  }

  // Scaling by the number of ranks undoes the averaging.
  lemma ScaleAndAverage(total: real, term: real, ranks: nat, sum: real)
    requires ranks > 0 && sum == total + Scaled(ranks, term)
    ensures Average(sum, ranks) == Average(total, ranks) + term
  {
    var n := ranks as real;
    DivAdd(total, n * term, n);
    assert (n * term) / n == term;
  }
}
