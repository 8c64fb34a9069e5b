// The micro-batch engine of the FSDP backend (src/tuft/backends/fsdp_engine.py)
// for the cross-entropy loss.
module FsdpEngine {
  import opened Wrappers
  import opened LossInputs
  import opened Sharding
  import opened TrainingRows

  datatype EngineError =
    | EmptyMicroBatch
    | EmptySequence
    | TargetLength(row: nat)
    | ClientField(field: FieldError)
    | UnexpectedFields
    | BadMicroSize(size: int)

  datatype MicroBatch = MicroBatch(inputIds: seq<seq<int>>, mask: seq<seq<bool>>, labels: seq<seq<int>>, lengths: seq<nat>)

  datatype EngineOutput = EngineOutput(logProbs: seq<seq<real>>, metrics: map<string, real>)

  // (loss * worldSize).backward() at one trainable coordinate.
  datatype BackwardCall = BackwardCall(worldSize: nat, slope: real)

  // The model under training: the backward() calls whose gradients are still accumulated.
  class TrainModule {
    var backwards: seq<BackwardCall>

    constructor ()
      ensures backwards == []
    {
      backwards := [];
    }
  }

  predicate RowsOk(data: seq<Datum>) {
    forall r :: 0 <= r < |data| ==> RowOk(data[r])
  }

  // ---------- _prepare_micro_batch ----------

  function TokenRows(data: seq<Datum>): seq<seq<int>> {
    seq(|data|, r requires 0 <= r < |data| => data[r].tokens)
  }

  // torch.roll(flat, -1).
  function Roll(flat: seq<int>): seq<int> {
    if flat == [] then [] else flat[1..] + [flat[0]]
  }

  function LabelRow(data: seq<Datum>, r: nat): seq<int>
    requires r < |data|
  {
    seq(|data[r].tokens|, i requires 0 <= i => LabelAt(data[r], NextFirst(data, r), i))
  }

  function AllLabels(data: seq<Datum>): seq<seq<int>> {
    seq(|data|, r requires 0 <= r < |data| => LabelRow(data, r))
  }

  // pad_sequence over tokens and labels, with the length-based attention mask.
  function Assemble(data: seq<Datum>, labels: seq<seq<int>>, width: nat): MicroBatch
    requires |labels| == |data|
    requires forall r :: 0 <= r < |data| ==> |data[r].tokens| == |labels[r]| <= width
  {
    MicroBatch(
      seq(|data|, r requires 0 <= r < |data| => PadRow(data[r].tokens, width, 0)),
      seq(|data|, r requires 0 <= r < |data| => Mask(|data[r].tokens|, width)),
      seq(|data|, r requires 0 <= r < |data| => PadRow(labels[r], width, 0)),
      seq(|data|, r requires 0 <= r < |data| => |data[r].tokens|))
  }

  function Prepared(data: seq<Datum>): MicroBatch {
    Assemble(data, AllLabels(data), MaxLen(data))
  }

  lemma {:induction false} FlattenIndex<T>(xss: seq<seq<T>>, r: nat, i: nat)
    requires r < |xss| && i < |xss[r]|
    ensures |Flatten(xss[..r])| + i < |Flatten(xss)|
    ensures Flatten(xss)[|Flatten(xss[..r])| + i] == xss[r][i]
  {
    var init := xss[..|xss| - 1];
    if r < |xss| - 1 {
      FlattenIndex(init, r, i);
      assert init[..r] == xss[..r];
    }
  }

  lemma FlattenStep<T>(xss: seq<seq<T>>, r: nat)
    requires r < |xss|
    ensures Flatten(xss[..r + 1]) == Flatten(xss[..r]) + xss[r]
  {
    assert xss[..r + 1][..r] == xss[..r];
  }

  // The slice of the flat roll that belongs to a row: its own tokens shifted by
  // one, ending in the first token of the next row (of the first row at the end).
  lemma RolledSlice(data: seq<Datum>, r: nat)
    requires r < |data| && forall j :: 0 <= j < |data| ==> data[j].tokens != []
    ensures var rows := TokenRows(data);
            var offset := |Flatten(rows[..r])|;
            && offset + |rows[r]| <= |Roll(Flatten(rows))|
            && Roll(Flatten(rows))[offset..offset + |rows[r]|] == data[r].tokens[1..] + [NextFirst(data, r)]
  {
    var rows := TokenRows(data);
    var flat := Flatten(rows);
    var offset := |Flatten(rows[..r])|;
    var n := |rows[r]|;
    FlattenIndex(rows, r, n - 1);
    FlattenStep(rows, r);
    forall i | 0 <= i < n
      ensures Roll(flat)[offset + i] == (data[r].tokens[1..] + [NextFirst(data, r)])[i]
    {
      if i + 1 < n {
        FlattenIndex(rows, r, i + 1);
      } else if r + 1 < |data| {
        FlattenIndex(rows, r + 1, 0);
      } else {
        assert rows[..|rows|] == rows && rows[..0] == [];
        FlattenIndex(rows, 0, 0);
      }
    }
    assert Roll(flat)[offset..offset + n] == data[r].tokens[1..] + [NextFirst(data, r)];
  }

  lemma LabelRowFallback(data: seq<Datum>, r: nat)
    requires r < |data| && data[r].tokens != []
    ensures Targets(data[r]).None? ==> LabelRow(data, r) == data[r].tokens[1..] + [NextFirst(data, r)]
    ensures Targets(data[r]).Some? && |Targets(data[r]).value| == |data[r].tokens| ==> LabelRow(data, r) == Targets(data[r]).value
  {
  }

  method PrepareMicroBatch(data: seq<Datum>) returns (r: Result<MicroBatch, EngineError>)
    ensures r.Ok? <==> data != [] && RowsOk(data)
    ensures r.Ok? ==> r.value == Prepared(data)
    ensures data == [] ==> r == Err(EmptyMicroBatch)
    ensures data != [] && (exists j :: 0 <= j < |data| && data[j].tokens == []) ==> r == Err(EmptySequence)
  {
    if data == [] {
      return Err(EmptyMicroBatch);
    }
    if exists j :: 0 <= j < |data| && data[j].tokens == [] {
      return Err(EmptySequence);
    }
    var rows := TokenRows(data);
    var flatLabels := Roll(Flatten(rows));
    var labels: seq<seq<int>> := [];
    var offset := 0;
    for row := 0 to |data|
      invariant |labels| == row
      invariant offset == |Flatten(rows[..row])|
      invariant forall j :: 0 <= j < row ==> RowOk(data[j]) && labels[j] == LabelRow(data, j)
    {
      var length := |data[row].tokens|;
      RolledSlice(data, row);
      LabelRowFallback(data, row);
      FlattenStep(rows, row);
      match Targets(data[row]) {
        case Some(targets) =>
          if |targets| != length {
            return Err(TargetLength(row));
          }
          labels := labels + [targets];
        case None =>
          labels := labels + [flatLabels[offset..offset + length]];
      }
      offset := offset + length;
    }
    assert labels == AllLabels(data);
    r := Ok(Assemble(data, labels, MaxLen(data)));
  }

  // ---------- _prepare_loss_fn_inputs: weights ----------

  // _copy_row: overwrite as much of one row as both sides hold.
  method CopyRow(destination: array2<real>, row: nat, value: seq<real>)
    requires row < destination.Length0
    modifies destination
    ensures forall i, j :: 0 <= i < destination.Length0 && 0 <= j < destination.Length1 ==>
                             destination[i, j] == if i == row && j < |value| then value[j] else old(destination[i, j])
  {
    var width := if destination.Length1 < |value| then destination.Length1 else |value|;
    for j := 0 to width
      invariant forall i, k :: 0 <= i < destination.Length0 && 0 <= k < destination.Length1 ==>
                                 destination[i, k] == if i == row && k < j then value[k] else old(destination[i, k])
    {
      destination[row, j] := value[j];
    }
  }

  function WeightRow(d: Datum, width: nat): seq<real> {
    seq(width, i requires 0 <= i => WeightAt(d, i))
  }

  method PrepareWeights(data: seq<Datum>, width: nat) returns (rows: seq<seq<real>>)
    ensures |rows| == |data|
    ensures forall r :: 0 <= r < |data| ==> rows[r] == WeightRow(data[r], width)
  {
    var weights := new real[|data|, width]((_, _) => 0.0);
    for row := 0 to |data|
      invariant forall i, j :: 0 <= i < |data| && 0 <= j < width ==>
                                 weights[i, j] == if i < row then WeightAt(data[i], j) else 0.0
    {
      var value: seq<real>;
      match Weights(data[row]) {
        case Some(ws) => value := ws;
        case None =>
          var length := |data[row].tokens|;
          value := seq(length, _ => 1.0);
          if Targets(data[row]).None? && length > 0 {
            value := value[length - 1 := 0.0];
          }
      }
      CopyRow(weights, row, value);
    }
    rows := seq(|data|, r requires 0 <= r < |data| reads weights =>
                seq(width, i requires 0 <= i < width reads weights => weights[r, i]));
  }

  // ---------- Loss ----------

  function TargetLogprobs(f: Network, temp: real, batch: MicroBatch): seq<seq<real>>
    requires |batch.inputIds| == |batch.mask| == |batch.labels|
    requires forall r :: 0 <= r < |batch.labels| ==> |batch.labels[r]| == |batch.inputIds[r]|
  {
    seq(|batch.inputIds|, r requires 0 <= r < |batch.inputIds| =>
      seq(|batch.inputIds[r]|, i requires 0 <= i < |batch.inputIds[r]| =>
        f(temp, batch.inputIds[r], batch.mask[r], i, batch.labels[r][i])))
  }

  function RowProduct(a: seq<real>, b: seq<real>, k: nat): real
    requires k <= |a| && k <= |b|
  {
    if k == 0 then 0.0 else RowProduct(a, b, k - 1) + a[k - 1] * b[k - 1]
  }

  predicate SameShape(a: seq<seq<real>>, b: seq<seq<real>>) {
    |a| == |b| && forall r :: 0 <= r < |a| ==> |a[r]| == |b[r]|
  }

  function RowProducts(a: seq<seq<real>>, b: seq<seq<real>>): seq<real>
    requires SameShape(a, b)
  {
    seq(|a|, r requires 0 <= r < |a| => RowSumOf(a[r], b[r]))
  }

  // (a * b).sum() over two matrices of one shape.
  function MatrixDot(a: seq<seq<real>>, b: seq<seq<real>>): real
    requires SameShape(a, b)
  {
    SumReals(RowProducts(a, b))
  }

  lemma {:induction false} RowProductIsRowDot(f: Network, temp: real, d: Datum, fin: int, a: seq<real>, b: seq<real>, k: nat)
    requires k <= |a| == |b| && |d.tokens| <= |a|
    requires forall i :: 0 <= i < |a| ==> a[i] == f(temp, PadRow(d.tokens, |a|, 0), Mask(|d.tokens|, |a|), i, LabelAt(d, fin, i))
    requires forall i :: 0 <= i < |a| ==> b[i] == WeightAt(d, i)
    ensures RowProduct(a, b, k) == RowDot(f, temp, d, |a|, fin, k)
  {
    if k > 0 {
      RowProductIsRowDot(f, temp, d, fin, a, b, k - 1);
    }
  }

  // Row r of the scored matrix, position by position.
  lemma ScoredRow(f: Network, temp: real, data: seq<Datum>, r: nat)
    requires r < |data|
    ensures var lp := TargetLogprobs(f, temp, Prepared(data))[r];
            var w := MaxLen(data);
            |lp| == w && forall i :: 0 <= i < w ==>
              lp[i] == f(temp, PadRow(data[r].tokens, w, 0), Mask(|data[r].tokens|, w), i, LabelAt(data[r], NextFirst(data, r), i))
  {
    var lp, w := TargetLogprobs(f, temp, Prepared(data))[r], MaxLen(data);
    forall i | 0 <= i < w
      ensures lp[i] == f(temp, PadRow(data[r].tokens, w, 0), Mask(|data[r].tokens|, w), i, LabelAt(data[r], NextFirst(data, r), i))
    {
      assert Prepared(data).labels[r][i] == LabelAt(data[r], NextFirst(data, r), i);
    }
  }

  lemma ScoredShape(f: Network, temp: real, data: seq<Datum>, weights: seq<seq<real>>)
    requires |data| == |weights|
    requires forall r :: 0 <= r < |data| ==> weights[r] == WeightRow(data[r], MaxLen(data))
    ensures SameShape(TargetLogprobs(f, temp, Prepared(data)), weights)
  {
  }

  // Row sum, zero for rows of different widths.
  function RowSumOf(a: seq<real>, b: seq<real>): real {
    if |a| == |b| then RowProduct(a, b, |a|) else 0.0
  }

  lemma ScoredRowSum(f: Network, temp: real, data: seq<Datum>, row: seq<real>, weights: seq<real>, r: nat)
    requires r < |data| && weights == WeightRow(data[r], MaxLen(data)) && row == TargetLogprobs(f, temp, Prepared(data))[r]
    ensures RowSumOf(row, weights) == RowDot(f, temp, data[r], MaxLen(data), NextFirst(data, r), MaxLen(data))
  {
    ScoredRow(f, temp, data, r);
    RowProductIsRowDot(f, temp, data[r], NextFirst(data, r), row, weights, MaxLen(data));
  }

  lemma SameElements(left: seq<real>, right: seq<real>)
    requires |left| == |right| && forall r :: 0 <= r < |left| ==> left[r] == right[r]
    ensures left == right
  {
  }

  lemma RowProductsAreRowDots(f: Network, temp: real, data: seq<Datum>, a: seq<seq<real>>, weights: seq<seq<real>>)
    requires SameShape(a, weights) && |data| == |weights| && a == TargetLogprobs(f, temp, Prepared(data))
    requires forall r :: 0 <= r < |data| ==> weights[r] == WeightRow(data[r], MaxLen(data))
    ensures RowProducts(a, weights) == RowDots(f, temp, data)
  {
    var left, right := RowProducts(a, weights), RowDots(f, temp, data);
    forall r | 0 <= r < |left|
      ensures left[r] == right[r]
    {
      ScoredRowSum(f, temp, data, a[r], weights[r], r);
    }
    SameElements(left, right);
  }

  lemma MatrixDotIsMicroDot(f: Network, temp: real, data: seq<Datum>, a: seq<seq<real>>, weights: seq<seq<real>>)
    requires |data| == |weights| && a == TargetLogprobs(f, temp, Prepared(data))
    requires forall r :: 0 <= r < |data| ==> weights[r] == WeightRow(data[r], MaxLen(data))
    ensures SameShape(a, weights)
    ensures MatrixDot(a, weights) == MicroDot(f, temp, data)
  {
    ScoredShape(f, temp, data, weights);
    RowProductsAreRowDots(f, temp, data, a, weights);
  }

  lemma OutputRows(f: Network, temp: real, data: seq<Datum>, r: nat)
    requires r < |data|
    ensures TargetLogprobs(f, temp, Prepared(data))[r][..|data[r].tokens|] == MicroOutputs(f, temp, data)[r]
  {
    var row := TargetLogprobs(f, temp, Prepared(data))[r];
    forall i | 0 <= i < |data[r].tokens|
      ensures row[i] == MicroOutputs(f, temp, data)[r][i]
    {
      assert Prepared(data).labels[r][i] == LabelAt(data[r], NextFirst(data, r), i);
    }
  }

  // ---------- forward_backward ----------

  // `"temperature" in config and config["temperature"]`: zero counts as absent.
  function EffectiveTemperature(temperature: Option<real>): real {
    if temperature.Some? && temperature.value != 0.0 then temperature.value else 1.0
  }

  // What scoring a micro-batch yields, as functions of the micro-batch.
  datatype Meaning = Meaning(loss: seq<Datum> -> real, slope: seq<Datum> -> real, rows: seq<Datum> -> seq<seq<real>>)

  // Cross-entropy under a network and its derivative at a temperature.
  ghost predicate Means(m: Meaning, net: Network, grad: Network, temp: real) {
    && (forall micro {:trigger MicroDot(net, temp, micro)} :: m.loss(micro) == -MicroDot(net, temp, micro))
    && (forall micro {:trigger MicroDot(grad, temp, micro)} :: m.slope(micro) == -MicroDot(grad, temp, micro))
    && (forall micro {:trigger MicroOutputs(net, temp, micro)} :: m.rows(micro) == MicroOutputs(net, temp, micro))
  }

  // What the loop hands to backward() for the given micro-batches, in order.
  function BackwardLog(slope: seq<Datum> -> real, worldSize: nat, ms: seq<seq<Datum>>): seq<BackwardCall> {
    if ms == [] then [] else BackwardLog(slope, worldSize, ms[..|ms| - 1]) + [BackwardCall(worldSize, slope(ms[|ms| - 1]))]
  }

  function LossTotal(loss: seq<Datum> -> real, ms: seq<seq<Datum>>): real {
    if ms == [] then 0.0 else LossTotal(loss, ms[..|ms| - 1]) + loss(ms[|ms| - 1])
  }

  function OutputsOf(rows: seq<Datum> -> seq<seq<real>>, ms: seq<seq<Datum>>): seq<seq<real>> {
    if ms == [] then [] else OutputsOf(rows, ms[..|ms| - 1]) + rows(ms[|ms| - 1])
  }

  // The micro-batches before the first malformed one.
  function GoodPrefix(ms: seq<seq<Datum>>): (good: seq<seq<Datum>>)
    ensures |good| <= |ms| && good == ms[..|good|]
  {
    if ms == [] || !RowsOk(ms[0]) then [] else [ms[0]] + GoodPrefix(ms[1..])
  }

  lemma {:induction false} GoodPrefixOf(done: seq<seq<Datum>>, rest: seq<seq<Datum>>)
    requires forall k :: 0 <= k < |done| ==> RowsOk(done[k])
    requires rest == [] || !RowsOk(rest[0])
    ensures GoodPrefix(done + rest) == done
  {
    if done != [] {
      GoodPrefixOf(done[1..], rest);
      assert (done + rest)[1..] == done[1..] + rest;
    } else {
      assert done + rest == rest;
    }
  }

  // Every row's generic fields batch, and the caller's keys are exactly fields that occur.
  ghost predicate ValidRequest(data: seq<Datum>, clientKeys: Option<seq<string>>) {
    && (forall k :: Mentioned(data, k) && k !in FSDP_OWNED ==> Uniform(data, k))
    && (clientKeys.Some? ==>
          && (forall k :: Mentioned(data, k) ==> k in clientKeys.value)
          && (forall k :: k in clientKeys.value && k !in FSDP_OWNED ==> Mentioned(data, k)))
  }

  // The generic client fields of one micro-batch.
  method BatchClientFields(micro: seq<Datum>, keys: seq<string>) returns (r: Result<map<string, seq<Tensor>>, EngineError>)
    requires micro != []
    ensures r.Ok? <==> forall k :: k in keys && k !in FSDP_OWNED ==> Uniform(micro, k)
    ensures r.Ok? ==> forall k :: k in r.value <==> k in keys && k !in FSDP_OWNED
  {
    var batched: map<string, seq<Tensor>> := map[];
    for i := 0 to |keys|
      invariant forall j :: 0 <= j < i && keys[j] !in FSDP_OWNED ==> Uniform(micro, keys[j])
      invariant forall k :: k in batched <==> k in keys[..i] && k !in FSDP_OWNED
    {
      assert keys[..i + 1] == keys[..i] + [keys[i]];
      if keys[i] !in FSDP_OWNED {
        var one, _ := BatchLossFnInput(micro, keys[i]);
        if one.Err? {
          return Err(ClientField(one.error));
        }
        batched := batched[keys[i] := one.value];
      }
    }
    assert keys[..|keys|] == keys;
    r := Ok(batched);
  }

  // target_logprobs[row, :length] for every row.
  method TrimRows(logprobs: seq<seq<real>>, lengths: seq<nat>) returns (rows: seq<seq<real>>)
    requires |logprobs| == |lengths| && forall r :: 0 <= r < |lengths| ==> lengths[r] <= |logprobs[r]|
    ensures |rows| == |lengths| && forall r :: 0 <= r < |rows| ==> rows[r] == logprobs[r][..lengths[r]]
  {
    rows := [];
    for i := 0 to |lengths|
      invariant |rows| == i && forall r :: 0 <= r < i ==> rows[r] == logprobs[r][..lengths[r]]
    {
      rows := rows + [logprobs[i][..lengths[i]]];
    }
  }

  lemma TrimmedRowsAreOutputs(f: Network, temp: real, data: seq<Datum>, rows: seq<seq<real>>)
    requires |rows| == |data|
    requires forall r :: 0 <= r < |data| ==> rows[r] == TargetLogprobs(f, temp, Prepared(data))[r][..|data[r].tokens|]
    ensures rows == MicroOutputs(f, temp, data)
  {
    forall r | 0 <= r < |data|
      ensures rows[r] == MicroOutputs(f, temp, data)[r]
    {
      OutputRows(f, temp, data, r);
    }
  }

  // cross_entropy_loss on the padded matrices.
  method CrossEntropy(f: Network, temp: real, micro: seq<Datum>, batch: MicroBatch, weights: seq<seq<real>>, ghost value: seq<Datum> -> real)
    returns (loss: real)
    requires batch == Prepared(micro)
    requires |weights| == |micro| && forall r :: 0 <= r < |micro| ==> weights[r] == WeightRow(micro[r], MaxLen(micro))
    requires forall data {:trigger MicroDot(f, temp, data)} :: value(data) == -MicroDot(f, temp, data)
    ensures loss == value(micro)
  {
    var logprobs := TargetLogprobs(f, temp, batch);
    MatrixDotIsMicroDot(f, temp, micro, logprobs, weights);
    loss := -MatrixDot(logprobs, weights);
    assert loss == -MicroDot(f, temp, micro);
  }

  // Loss, its slope and the trimmed log-probabilities of a prepared micro-batch.
  method ScorePrepared(net: Network, grad: Network, temp: real, micro: seq<Datum>, batch: MicroBatch, weights: seq<seq<real>>, ghost m: Meaning)
    returns (scored: Scored)
    requires Means(m, net, grad, temp) && batch == Prepared(micro)
    requires |weights| == |micro| && forall r :: 0 <= r < |micro| ==> weights[r] == WeightRow(micro[r], MaxLen(micro))
    ensures scored == Scored(m.loss(micro), m.slope(micro), m.rows(micro))
  {
    var loss := CrossEntropy(net, temp, micro, batch, weights, m.loss);
    var slope := CrossEntropy(grad, temp, micro, batch, weights, m.slope);
    var rows := TrimRows(TargetLogprobs(net, temp, batch), batch.lengths);
    TrimmedRowsAreOutputs(net, temp, micro, rows);
    scored := Scored(loss, slope, rows);
  }

  datatype Scored = Scored(loss: real, slope: real, rows: seq<seq<real>>)

  // One iteration of the loop, up to but not including backward().
  method ScoreMicroBatch(net: Network, grad: Network, temp: real, micro: seq<Datum>, keys: seq<string>, ghost m: Meaning)
    returns (r: Result<Scored, EngineError>)
    requires micro != [] && Means(m, net, grad, temp)
    ensures r.Ok? <==> RowsOk(micro) && forall k :: k in keys && k !in FSDP_OWNED ==> Uniform(micro, k)
    ensures r.Ok? ==> r.value == Scored(m.loss(micro), m.slope(micro), m.rows(micro))
  {
    var prepared := PrepareMicroBatch(micro);
    if prepared.Err? {
      return Err(prepared.error);
    }
    var batch := prepared.value;
    var generic := BatchClientFields(micro, keys);
    if generic.Err? {
      return Err(generic.error);
    }
    var weights := PrepareWeights(micro, MaxLen(micro));
    var scored := ScorePrepared(net, grad, temp, micro, batch, weights, m);
    r := Ok(scored);
  }

  // One micro-batch: score it, then call backward() unless only the forward pass was asked for.
  method RunOne(module_: TrainModule, net: Network, grad: Network, data: seq<Datum>, temp: real, mb: nat, worldSize: nat,
                forwardOnly: bool, keys: seq<string>, start: nat, stop: nat,
                ghost m: Meaning, ghost done: seq<seq<Datum>>, ghost rest: seq<seq<Datum>>)
    returns (r: Result<Scored, EngineError>)
    requires Means(m, net, grad, temp)
    requires AllValid(data) && mb > 0 && start < |data| && Progress(data, mb, keys, start, done, rest)
    requires stop == if start + mb <= |data| then start + mb else |data|
    requires forall k :: Mentioned(data, k) && k !in FSDP_OWNED ==> Uniform(data, k)
    modifies module_
    ensures r.Err? ==> module_.backwards == old(module_.backwards)
    ensures r.Err? ==> if KeysOccur(data, keys) then GoodPrefix(Micros(data, mb)) == done && !RowsOk(data) else done == []
    ensures r.Ok? ==> Progress(data, mb, keys, stop, done + [data[start..stop]], rest[1..])
    ensures r.Ok? ==> module_.backwards == old(module_.backwards) + if forwardOnly then [] else [BackwardCall(worldSize, r.value.slope)]
    ensures r.Ok? ==> r.value == Scored(m.loss(data[start..stop]), m.slope(data[start..stop]), m.rows(data[start..stop]))
  {
    NextMicro(data, start, stop, mb);
    r := ScoreMicroBatch(net, grad, temp, data[start..stop], keys, m);
    if r.Err? {
      FailedMicroBatch(data, keys, start, stop, done, rest);
      return;
    }
    Advance(data, mb, keys, start, stop, done, rest);
    if !forwardOnly {
      module_.backwards := module_.backwards + [BackwardCall(worldSize, r.value.slope)];
    }
  }

  // The loop over micro-batches, once the request's fields have been validated.
  method RunMicroBatches(module_: TrainModule, net: Network, grad: Network, data: seq<Datum>, temp: real,
                         microSize: nat, worldSize: nat, forwardOnly: bool, keys: seq<string>, ghost m: Meaning)
    returns (r: Result<EngineOutput, EngineError>)
    requires Means(m, net, grad, temp)
    requires AllValid(data) && data != [] && microSize > 0
    requires forall k :: Mentioned(data, k) && k !in FSDP_OWNED ==> Uniform(data, k)
    modifies module_
    ensures !KeysOccur(data, keys) ==> r.Err? && module_.backwards == old(module_.backwards)
    ensures KeysOccur(data, keys) ==>
              && (r.Ok? <==> RowsOk(data))
              && module_.backwards == old(module_.backwards)
                 + if forwardOnly then [] else BackwardLog(m.slope, worldSize, GoodPrefix(Micros(data, microSize)))
    ensures r.Ok? ==> r.value == EngineOutput(OutputsOf(m.rows, Micros(data, microSize)),
                                              map["loss:sum" := LossTotal(m.loss, Micros(data, microSize))])
  {
    ghost var done: seq<seq<Datum>>, rest := [], Micros(data, microSize);
    var perSample: seq<seq<real>> := [];
    var total := 0.0;
    var start := 0;
    assert data[0..] == data && Micros(data, microSize) == done + rest;
    while start < |data|
      invariant Progress(data, microSize, keys, start, done, rest)
      invariant module_.backwards == old(module_.backwards) + if forwardOnly then [] else BackwardLog(m.slope, worldSize, done)
      invariant perSample == OutputsOf(m.rows, done) && total == LossTotal(m.loss, done)
    {
      var stop := if start + microSize <= |data| then start + microSize else |data|;
      var scored := RunOne(module_, net, grad, data, temp, microSize, worldSize, forwardOnly, keys, start, stop, m, done, rest);
      if scored.Err? {
        return Err(scored.error);
      }
      total := total + scored.value.loss;
      perSample := perSample + scored.value.rows;
      Snoc(m, worldSize, done, data[start..stop]);
      Associate(old(module_.backwards), BackwardLog(m.slope, worldSize, done), [BackwardCall(worldSize, scored.value.slope)]);
      done, rest := done + [data[start..stop]], rest[1..];
      start := stop;
    }
    Finish(data, microSize, keys, start, done, rest);
    r := Ok(EngineOutput(perSample, map["loss:sum" := total]));
  }

  // `done` are the micro-batches already run, all of them well-formed; `rest` are those to come.
  ghost predicate Progress(data: seq<Datum>, mb: nat, keys: seq<string>, start: int, done: seq<seq<Datum>>, rest: seq<seq<Datum>>)
    requires mb > 0
  {
    && 0 <= start <= |data|
    && rest == Micros(data[start..], mb)
    && Micros(data, mb) == done + rest
    && Flatten(done) == data[..start]
    && (start > 0 ==> KeysOccur(data, keys))
    && (start == 0 ==> done == [])
    && RowsOk(data[..start])
  }

  lemma Finish(data: seq<Datum>, mb: nat, keys: seq<string>, start: nat, done: seq<seq<Datum>>, rest: seq<seq<Datum>>)
    requires mb > 0 && data != [] && start >= |data| && Progress(data, mb, keys, start, done, rest)
    ensures KeysOccur(data, keys) && RowsOk(data)
    ensures done == Micros(data, mb) == GoodPrefix(Micros(data, mb))
  {
    assert data[..start] == data && rest == [] && done + rest == done;
    GoodMicros(data, done, []);
  }

  lemma Advance(data: seq<Datum>, mb: nat, keys: seq<string>, start: nat, stop: nat, done: seq<seq<Datum>>, rest: seq<seq<Datum>>)
    requires AllValid(data) && mb > 0 && start < |data| && Progress(data, mb, keys, start, done, rest)
    requires stop == if start + mb <= |data| then start + mb else |data|
    requires RowsOk(data[start..stop])
    requires forall k :: k in keys && k !in FSDP_OWNED ==> Uniform(data[start..stop], k)
    ensures rest != [] && Progress(data, mb, keys, stop, done + [data[start..stop]], rest[1..])
  {
    NextMicro(data, start, stop, mb);
    Associate(done, [data[start..stop]], rest[1..]);
    SuccessfulMicroBatch(data, keys, start, stop);
    FlattenSnoc(done, data[start..stop], data, start, stop);
  }

  lemma Associate<T>(a: seq<T>, b: seq<T>, c: seq<T>)
    ensures (a + b) + c == a + (b + c)
  {
  }

  lemma FlattenSnoc(done: seq<seq<Datum>>, micro: seq<Datum>, data: seq<Datum>, start: nat, stop: nat)
    requires start <= stop <= |data| && micro == data[start..stop] && Flatten(done) == data[..start]
    ensures Flatten(done + [micro]) == data[..stop]
  {
    assert (done + [micro])[..|done|] == done;
  }

  method ForwardBackward(module_: TrainModule, net: Network, grad: Network, data: seq<Datum>, temperature: Option<real>,
                         microSize: int, worldSize: nat, forwardOnly: bool, clientKeys: Option<seq<string>>, ghost m: Meaning)
    returns (r: Result<EngineOutput, EngineError>)
    requires Means(m, net, grad, EffectiveTemperature(temperature))
    requires AllValid(data)
    modifies module_
    ensures data == [] ==> r == Ok(EngineOutput([], map[])) && module_.backwards == old(module_.backwards)
    ensures data != [] && microSize <= 0 ==> r == Err(BadMicroSize(microSize)) && module_.backwards == old(module_.backwards)
    ensures data != [] && microSize > 0 && !ValidRequest(data, clientKeys) ==>
              r.Err? && module_.backwards == old(module_.backwards)
    ensures data != [] && microSize > 0 && ValidRequest(data, clientKeys) ==>
              && (r.Ok? <==> RowsOk(data))
              && module_.backwards == old(module_.backwards)
                 + (if forwardOnly then []
                    else BackwardLog(m.slope, worldSize, GoodPrefix(Micros(data, microSize))))
    ensures data != [] && microSize > 0 && r.Ok? ==>
              r.value == EngineOutput(OutputsOf(m.rows, Micros(data, microSize)),
                                      map["loss:sum" := LossTotal(m.loss, Micros(data, microSize))])
  {
    if data == [] {
      return Ok(EngineOutput([], map[]));
    }
    if microSize <= 0 {
      return Err(BadMicroSize(microSize));
    }
    var localKeys := ValidateClientInputs(data, FSDP_OWNED, {});
    if localKeys.Err? {
      return Err(ClientField(localKeys.error));
    }
    var keys := localKeys.value;
    if clientKeys.Some? {
      if exists k :: k in localKeys.value && k !in clientKeys.value {
        return Err(UnexpectedFields);
      }
      keys := clientKeys.value;
    }
    r := RunMicroBatches(module_, net, grad, data, EffectiveTemperature(temperature), microSize, worldSize, forwardOnly, keys, m);
  }

  lemma NextMicro(data: seq<Datum>, start: nat, stop: nat, mb: nat)
    requires mb > 0 && start < |data|
    requires stop == if start + mb <= |data| then start + mb else |data|
    ensures Micros(data[start..], mb) == [data[start..stop]] + Micros(data[stop..], mb)
  {
    if |data| - start <= mb {
      assert data[start..stop] == data[start..] && data[stop..] == [];
    } else {
      assert data[start..][..mb] == data[start..stop] && data[start..][mb..] == data[stop..];
    }
  }

  lemma Snoc(m: Meaning, worldSize: nat, done: seq<seq<Datum>>, micro: seq<Datum>)
    ensures BackwardLog(m.slope, worldSize, done + [micro]) == BackwardLog(m.slope, worldSize, done) + [BackwardCall(worldSize, m.slope(micro))]
    ensures OutputsOf(m.rows, done + [micro]) == OutputsOf(m.rows, done) + m.rows(micro)
    ensures LossTotal(m.loss, done + [micro]) == LossTotal(m.loss, done) + m.loss(micro)
  {
    assert (done + [micro])[..|done + [micro]| - 1] == done;
  }

  // The client keys handed to the engine that it must batch all occur in the request.
  ghost predicate KeysOccur(data: seq<Datum>, keys: seq<string>) {
    forall k :: k in keys && k !in FSDP_OWNED ==> Mentioned(data, k)
  }

  lemma SuccessfulMicroBatch(data: seq<Datum>, keys: seq<string>, start: nat, stop: nat)
    requires AllValid(data) && start < stop <= |data|
    requires forall k :: k in keys && k !in FSDP_OWNED ==> Uniform(data[start..stop], k)
    requires RowsOk(data[..start]) && RowsOk(data[start..stop])
    ensures KeysOccur(data, keys) && RowsOk(data[..stop])
  {
    forall k | k in keys && k !in FSDP_OWNED
      ensures Mentioned(data, k)
    {
      assert k in data[start..stop][0].fields.values;
      assert data[start] in data && k in data[start].fields.order;
    }
    forall r | 0 <= r < stop
      ensures RowOk(data[r])
    {
      if r < start {
        assert RowOk(data[..start][r]);
      } else {
        assert RowOk(data[start..stop][r - start]);
      }
    }
  }

  // A micro-batch of a valid request can fail only through its own rows.
  lemma FailedMicroBatch(data: seq<Datum>, keys: seq<string>, start: nat, stop: nat, done: seq<seq<Datum>>, rest: seq<seq<Datum>>)
    requires start < stop <= |data| && rest != [] && rest[0] == data[start..stop]
    requires Flatten(done) == data[..start] && RowsOk(data[..start])
    requires forall k :: Mentioned(data, k) && k !in FSDP_OWNED ==> Uniform(data, k)
    requires !(RowsOk(rest[0]) && forall k :: k in keys && k !in FSDP_OWNED ==> Uniform(rest[0], k))
    ensures KeysOccur(data, keys) ==> GoodPrefix(done + rest) == done && !RowsOk(data)
  {
    if KeysOccur(data, keys) {
      forall k | k in keys && k !in FSDP_OWNED
        ensures Uniform(rest[0], k)
      {
        UniformOnSlices(data, k, start, stop);
      }
      var i :| 0 <= i < |rest[0]| && !RowOk(rest[0][i]);
      assert rest[0][i] == data[start + i];
      GoodMicros(data[..start], done, rest);
    }
  }

  lemma {:induction false} GoodMicros(data: seq<Datum>, done: seq<seq<Datum>>, rest: seq<seq<Datum>>)
    requires Flatten(done) == data && RowsOk(data)
    requires rest == [] || !RowsOk(rest[0])
    ensures GoodPrefix(done + rest) == done
  {
    forall k | 0 <= k < |done|
      ensures RowsOk(done[k])
    {
      forall i | 0 <= i < |done[k]|
        ensures RowOk(done[k][i])
      {
        FlattenIndex(done, k, i);
      }
    }
    GoodPrefixOf(done, rest);
  }
}
