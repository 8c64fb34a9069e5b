// The single-process backend's micro-batch loop and its agreement with the FSDP
// engine (src/tuft/backends/hf_training_model.py).
module HfTraining {
  import opened Wrappers
  import opened LossInputs
  import opened Sharding
  import opened TrainingRows
  import opened FsdpEngine
  import opened FsdpTraining

  datatype HfError = Field(field: FieldError) | MissingLossInput(key: string)

  // Rows whose targets and weights, where given, are vectors of the row's own length.
  ghost predicate Aligned(data: seq<Datum>) {
    forall r :: 0 <= r < |data| ==> RowAligned(data[r])
  }

  predicate RowAligned(d: Datum) {
    && d.tokens != []
    && ("target_tokens" in d.fields.values ==> d.fields.values["target_tokens"].shape == [|d.tokens|])
    && ("weights" in d.fields.values ==> d.fields.values["weights"].shape == [|d.tokens|])
  }

  // ---------- Padded client vectors ----------

  function VectorRow(t: Tensor, width: nat): seq<real> {
    seq(width, i requires 0 <= i => t.at([i]))
  }

  function IntRow(t: Tensor, width: nat): seq<int> {
    seq(width, i requires 0 <= i => Truncate(t.at([i])))
  }

  lemma AlignedColumn(data: seq<Datum>, key: string)
    requires Aligned(data) && Uniform(data, key)
    requires key == "target_tokens" || key == "weights"
    ensures |FieldColumn(data, key)| == |data|
    ensures forall i :: 0 <= i < |data| ==> FieldColumn(data, key)[i].shape == [|data[i].tokens|]
  {
    forall i | 0 <= i < |data|
      ensures FieldColumn(data, key)[i].shape == [|data[i].tokens|]
    {
      assert RowAligned(data[i]);
    }
  }

  // The batch's width is the longest row.
  lemma AlignedShape(data: seq<Datum>, ts: seq<Tensor>, shape: seq<nat>)
    requires data != [] && |ts| == |data| && forall i :: 0 <= i < |data| ==> ts[i].shape == [|data[i].tokens|]
    requires IsMaxShape(ts, shape)
    ensures shape == [MaxLen(data)]
  {
    assert |ts[0].shape| == |shape| == 1;
    var i :| 0 <= i < |ts| && ts[i].shape[0] == shape[0];
    var r :| 0 <= r < |data| && |data[r].tokens| == MaxLen(data);
    assert ts[r].shape[0] <= shape[0] == |data[i].tokens|;
  }

  lemma PaddedTargets(d: Datum, padded: Tensor, width: nat)
    requires RowAligned(d) && "target_tokens" in d.fields.values
    requires ZeroPadded(padded, d.fields.values["target_tokens"], [width])
    ensures RowOk(d) && |d.tokens| <= width
    ensures IntRow(padded, width) == PadRow(Targets(d).value, width, 0)
  {
    var t := d.fields.values["target_tokens"];
    FlatVector(t);
    forall i | 0 <= i < width
      ensures IntRow(padded, width)[i] == PadRow(Targets(d).value, width, 0)[i]
    {
      assert InShape([i], [width]);
      assert InShape([i], t.shape) <==> i < |d.tokens|;
    }
  }

  lemma PaddedWeights(d: Datum, padded: Tensor, width: nat)
    requires RowAligned(d) && "weights" in d.fields.values
    requires ZeroPadded(padded, d.fields.values["weights"], [width])
    ensures VectorRow(padded, width) == WeightRow(d, width)
  {
    var t := d.fields.values["weights"];
    FlatVector(t);
    forall i | 0 <= i < width
      ensures VectorRow(padded, width)[i] == WeightRow(d, width)[i]
    {
      assert InShape([i], [width]);
      assert InShape([i], t.shape) <==> i < |d.tokens|;
    }
  }

  // ---------- _forward_micro_batch ----------

  // The generic batching path produces the very labels that FSDP prepares.
  method PrepareLabels(micro: seq<Datum>) returns (batch: MicroBatch)
    requires micro != [] && Aligned(micro) && Uniform(micro, "target_tokens")
    ensures batch == Prepared(micro)
  {
    var padded, shape := BatchLossFnInput(micro, "target_tokens");
    var width := MaxLen(micro);
    AlignedColumn(micro, "target_tokens");
    AlignedShape(micro, FieldColumn(micro, "target_tokens"), shape);
    var labels := PaddedLabels(micro, padded.value, width);
    PaddedLabelsArePrepared(micro, labels);
    batch := WithLabels(micro, labels, width);
  }

  method PaddedLabels(micro: seq<Datum>, padded: seq<Tensor>, width: nat) returns (labels: seq<seq<int>>)
    requires Aligned(micro) && |padded| == |micro| && width == MaxLen(micro)
    requires forall r :: 0 <= r < |micro| ==>
               "target_tokens" in micro[r].fields.values && ZeroPadded(padded[r], micro[r].fields.values["target_tokens"], [width])
    ensures |labels| == |micro| && forall r :: 0 <= r < |micro| ==> labels[r] == PadRow(LabelRow(micro, r), width, 0)
  {
    labels := [];
    for r := 0 to |micro|
      invariant |labels| == r
      invariant forall j :: 0 <= j < r ==> labels[j] == PadRow(LabelRow(micro, j), width, 0)
    {
      PaddedTargets(micro[r], padded[r], width);
      LabelRowFallback(micro, r);
      labels := labels + [IntRow(padded[r], width)];
    }
  }

  // Padded tokens and masks beside labels that are already padded.
  function WithLabels(micro: seq<Datum>, labels: seq<seq<int>>, width: nat): MicroBatch
    requires forall r :: 0 <= r < |micro| ==> |micro[r].tokens| <= width
  {
    MicroBatch(seq(|micro|, r requires 0 <= r < |micro| => PadRow(micro[r].tokens, width, 0)),
               seq(|micro|, r requires 0 <= r < |micro| => Mask(|micro[r].tokens|, width)),
               labels,
               seq(|micro|, r requires 0 <= r < |micro| => |micro[r].tokens|))
  }

  lemma PaddedLabelsArePrepared(micro: seq<Datum>, labels: seq<seq<int>>)
    requires |labels| == |micro|
    requires forall j :: 0 <= j < |micro| ==> labels[j] == PadRow(LabelRow(micro, j), MaxLen(micro), 0)
    ensures WithLabels(micro, labels, MaxLen(micro)) == Prepared(micro)
  {
    assert labels == Prepared(micro).labels;
  }

  method PrepareClientWeights(micro: seq<Datum>) returns (weights: seq<seq<real>>)
    requires micro != [] && Aligned(micro) && Uniform(micro, "weights")
    ensures |weights| == |micro| && forall r :: 0 <= r < |micro| ==> weights[r] == WeightRow(micro[r], MaxLen(micro))
  {
    var padded, shape := BatchLossFnInput(micro, "weights");
    var width := MaxLen(micro);
    AlignedColumn(micro, "weights");
    AlignedShape(micro, FieldColumn(micro, "weights"), shape);
    weights := PaddedWeightRows(micro, padded.value, width);
  }

  method PaddedWeightRows(micro: seq<Datum>, padded: seq<Tensor>, width: nat) returns (weights: seq<seq<real>>)
    requires Aligned(micro) && |padded| == |micro|
    requires forall r :: 0 <= r < |micro| ==>
               "weights" in micro[r].fields.values && ZeroPadded(padded[r], micro[r].fields.values["weights"], [width])
    ensures |weights| == |micro| && forall r :: 0 <= r < |micro| ==> weights[r] == WeightRow(micro[r], width)
  {
    weights := [];
    for r := 0 to |micro|
      invariant |weights| == r
      invariant forall j :: 0 <= j < r ==> weights[j] == WeightRow(micro[j], width)
    {
      PaddedWeights(micro[r], padded[r], width);
      weights := weights + [VectorRow(padded[r], width)];
    }
  }

  method ForwardMicroBatch(module_: TrainModule, net: Network, grad: Network, temp: real, micro: seq<Datum>, backward: bool, ghost m: Meaning)
    returns (scored: Scored)
    requires Means(m, net, grad, temp)
    requires micro != [] && Aligned(micro) && Uniform(micro, "target_tokens") && Uniform(micro, "weights")
    modifies module_
    ensures module_.backwards == old(module_.backwards) + if backward then [BackwardCall(1, m.slope(micro))] else []
    ensures scored == Scored(m.loss(micro), m.slope(micro), m.rows(micro))
  {
    var batch := PrepareLabels(micro);
    var weights := PrepareClientWeights(micro);
    scored := ScorePrepared(net, grad, temp, micro, batch, weights, m);
    if backward {
      module_.backwards := module_.backwards + [BackwardCall(1, scored.slope)];
    }
  }

  // ---------- forward ----------

  // `"temperature" in config` divides whatever the value.
  function HfTemperature(temperature: Option<real>): real {
    if temperature.Some? then temperature.value else 1.0
  }

  ghost predicate HfValid(data: seq<Datum>) {
    && Mentioned(data, "target_tokens")
    && Mentioned(data, "weights")
    && forall k :: Mentioned(data, k) && k !in MODEL_DERIVED ==> Uniform(data, k)
  }

  method Forward(module_: TrainModule, net: Network, grad: Network, data: seq<Datum>, temperature: Option<real>,
                 microSize: int, backward: bool, ghost m: Meaning)
    returns (r: Result<EngineOutput, HfError>)
    requires Means(m, net, grad, HfTemperature(temperature))
    requires AllValid(data) && Aligned(data) && microSize > 0
    modifies module_
    ensures data == [] ==> r == Ok(EngineOutput([], map[])) && module_.backwards == old(module_.backwards)
    ensures data != [] ==> (r.Ok? <==> HfValid(data))
    ensures r.Err? ==> module_.backwards == old(module_.backwards)
    ensures data != [] && r.Ok? ==>
              module_.backwards == old(module_.backwards) + if backward then BackwardLog(m.slope, 1, Micros(data, microSize)) else []
    ensures data != [] && r.Ok? ==> r.value == PartOutput(m, Micros(data, microSize))
  {
    if data == [] {
      return Ok(EngineOutput([], map[]));
    }
    var keys := ValidateClientInputs(data, MODEL_DERIVED, {"target_tokens"});
    if keys.Err? {
      return Err(Field(keys.error));
    }
    assert "target_tokens" in {"target_tokens"};
    if "weights" !in keys.value {
      return Err(MissingLossInput("weights"));
    }
    var out := RunLoop(module_, net, grad, HfTemperature(temperature), data, microSize, backward, m);
    r := Ok(out);
  }

  method RunLoop(module_: TrainModule, net: Network, grad: Network, temp: real, data: seq<Datum>, microSize: nat, backward: bool, ghost m: Meaning)
    returns (out: EngineOutput)
    requires Means(m, net, grad, temp)
    requires microSize > 0 && data != [] && Aligned(data) && Uniform(data, "target_tokens") && Uniform(data, "weights")
    modifies module_
    ensures module_.backwards == old(module_.backwards) + if backward then BackwardLog(m.slope, 1, Micros(data, microSize)) else []
    ensures out == PartOutput(m, Micros(data, microSize))
  {
    var batchSize := |data|;
    CountIsNatural(batchSize, microSize);
    var numMicroBatches: nat := (batchSize + microSize - 1) / microSize;
    var total := 0.0;
    var outputs: seq<seq<real>> := [];
    ghost var done: seq<seq<Datum>> := [];
    assert data[0..] == data && done + Micros(data, microSize) == Micros(data, microSize);
    for micro := 0 to numMicroBatches
      invariant Micros(data, microSize) == done + Micros(data[Start(micro, microSize, batchSize)..], microSize)
      invariant RunSoFar(old(module_.backwards), module_.backwards, m, backward, done, outputs, total)
    {
      ghost var before := module_.backwards;
      var scored;
      ghost var slice;
      scored, slice := RunSlice(module_, net, grad, temp, data, microSize, micro, numMicroBatches, backward, m, done);
      RunOneMore(old(module_.backwards), before, module_.backwards, m, backward, done, outputs, total, slice, scored);
      total := total + scored.loss;
      outputs := outputs + scored.rows;
      done := done + [slice];
    }
    EndReached(numMicroBatches, microSize, batchSize);
    assert Micros(data[batchSize..], microSize) == [] && done + [] == done;
    out := EngineOutput(outputs, map["loss:sum" := total]);
  }

  ghost predicate RunSoFar(start: seq<BackwardCall>, now: seq<BackwardCall>, m: Meaning, backward: bool, done: seq<seq<Datum>>,
                           outputs: seq<seq<real>>, total: real)
  {
    && now == start + (if backward then BackwardLog(m.slope, 1, done) else [])
    && outputs == OutputsOf(m.rows, done) && total == LossTotal(m.loss, done)
  }

  lemma RunOneMore(start: seq<BackwardCall>, before: seq<BackwardCall>, after: seq<BackwardCall>, m: Meaning, backward: bool,
                   done: seq<seq<Datum>>, outputs: seq<seq<real>>, total: real, slice: seq<Datum>, scored: Scored)
    requires RunSoFar(start, before, m, backward, done, outputs, total)
    requires after == before + (if backward then [BackwardCall(1, m.slope(slice))] else [])
    requires scored == Scored(m.loss(slice), m.slope(slice), m.rows(slice))
    ensures RunSoFar(start, after, m, backward, done + [slice], outputs + scored.rows, total + scored.loss)
  {
    Snoc(m, 1, done, slice);
    Associate(start, BackwardLog(m.slope, 1, done), [BackwardCall(1, m.slope(slice))]);
  }

  lemma CountIsNatural(n: nat, mb: nat)
    requires mb > 0
    ensures (n + mb - 1) / mb >= 0
  {
  }

  // The micro-batch of one loop index.
  method RunSlice(module_: TrainModule, net: Network, grad: Network, temp: real, data: seq<Datum>, mb: nat, micro: nat, count: nat,
                  backward: bool, ghost m: Meaning, ghost done: seq<seq<Datum>>)
    returns (scored: Scored, ghost slice: seq<Datum>)
    requires Means(m, net, grad, temp)
    requires mb > 0 && count == (|data| + mb - 1) / mb && micro < count
    requires Aligned(data) && Uniform(data, "target_tokens") && Uniform(data, "weights")
    requires Micros(data, mb) == done + Micros(data[Start(micro, mb, |data|)..], mb)
    modifies module_
    ensures module_.backwards == old(module_.backwards) + if backward then [BackwardCall(1, m.slope(slice))] else []
    ensures scored == Scored(m.loss(slice), m.slope(slice), m.rows(slice))
    ensures Micros(data, mb) == (done + [slice]) + Micros(data[Start(micro + 1, mb, |data|)..], mb)
  {
    var start := micro * mb;
    StartInRange(micro, mb, |data|);
    var stop := if start + mb < |data| then start + mb else |data|;
    slice := data[start..stop];
    NextMicro(data, start, stop, mb);
    Associate(done, [slice], Micros(data[stop..], mb));
    SliceReady(data, start, stop);
    scored := ForwardMicroBatch(module_, net, grad, temp, data[start..stop], backward, m);
  }

  function Start(k: nat, mb: nat, n: nat): nat {
    if k * mb <= n then k * mb else n
  }

  lemma StartInRange(k: nat, mb: nat, n: nat)
    requires mb > 0 && k < (n + mb - 1) / mb
    ensures k * mb < n && Start(k, mb, n) == k * mb
    ensures Start(k + 1, mb, n) == if k * mb + mb < n then k * mb + mb else n
  {
    var q := (n + mb - 1) / mb;
    assert q * mb <= n + mb - 1;
    assert (q - k) * mb >= mb by { MulAtLeast(q - k, mb); }
    assert (q - k) * mb == q * mb - k * mb;
    assert (k + 1) * mb == k * mb + mb;
  }

  lemma EndReached(q: nat, mb: nat, n: nat)
    requires mb > 0 && q == (n + mb - 1) / mb
    ensures Start(q, mb, n) == n
  {
    assert n + mb - 1 < q * mb + mb;
  }

  lemma SliceReady(data: seq<Datum>, lo: nat, hi: nat)
    requires lo < hi <= |data| && Aligned(data) && Uniform(data, "target_tokens") && Uniform(data, "weights")
    ensures Aligned(data[lo..hi]) && Uniform(data[lo..hi], "target_tokens") && Uniform(data[lo..hi], "weights")
  {
    UniformOnSlices(data, "target_tokens", lo, hi);
    UniformOnSlices(data, "weights", lo, hi);
  }

  // ---------- Parity ----------

  // A request both backends accept, with explicit targets and weights of each
  // row's own length and a non-zero temperature: the gradient one leaves equals
  // the other's, so do the losses and the per-row outputs, for any two
  // micro-batch sizes and any split over ranks.
  lemma BackendsAgree(m: Meaning, p: PerRow, data: seq<Datum>, hfSize: nat, parts: seq<seq<seq<Datum>>>, before: seq<seq<BackwardCall>>)
    requires RowWise(m, p) && hfSize > 0
    requires Aligned(data) && (forall r :: 0 <= r < |data| ==> "target_tokens" in data[r].fields.values && "weights" in data[r].fields.values)
    requires parts != [] && |before| == |parts| && Flatten(Flatten(parts)) == data
    ensures Reduced(ExtendedLogs(before, m.slope, parts, true)) - Reduced(before) == Sum(BackwardLog(m.slope, 1, Micros(data, hfSize)))
    ensures LossTotal(m.loss, Flatten(parts)) == LossTotal(m.loss, Micros(data, hfSize))
    ensures OutputsOf(m.rows, Flatten(parts)) == OutputsOf(m.rows, Micros(data, hfSize)) == OwnOutputs(p.own, data)
  {
    AlignedRowsSettle(data);
    MicrosCover(data, hfSize);
    var ms := Micros(data, hfSize);
    FullBatchOfParts(before, m, p, data, parts, true);
    LossTotalIsBatchTerm(m.loss, p.loss, ms);
    LossTotalIsBatchTerm(m.slope, p.slope, ms);
    LogIsScaledTotal(m.slope, 1, ms);
    OutputsAreOwn(m.rows, p.own, ms);
  }

  lemma AlignedRowsSettle(data: seq<Datum>)
    requires Aligned(data) && forall r :: 0 <= r < |data| ==> "target_tokens" in data[r].fields.values && "weights" in data[r].fields.values
    ensures AllSettled(data) && AllTargeted(data) && RowsOk(data)
  {
    forall r | 0 <= r < |data|
      ensures Settled(data[r]) && Targets(data[r]).Some? && RowOk(data[r])
    {
      FlatVector(data[r].fields.values["target_tokens"]);
      FlatVector(data[r].fields.values["weights"]);
      DocumentedRowsAreSettled(data[r]);
    }
  }

  // The two backends read a temperature alike except for an explicit zero.
  lemma TemperaturesAgree(temperature: Option<real>)
    ensures HfTemperature(temperature) == EffectiveTemperature(temperature) <==> temperature != Some(0.0)
  {
  }
}
