// What a training call means on rows as clients send them, read off the rows' own fields:
// tokens, integral targets and weights as vectors (src/tuft/backends/fsdp_engine.py,
// src/tuft/loss_fn/cross_entropy.py).
module PlainTraining {
  import opened Wrappers
  import opened LossInputs
  import opened Sharding
  import opened TrainingRows
  import opened FsdpEngine
  import opened FsdpTraining

  // ---------- Sums over sequences ----------

  function Total(xs: seq<real>): real {
    if xs == [] then 0.0 else Total(xs[..|xs| - 1]) + xs[|xs| - 1]
  }

  // ---------- Rows ----------

  // A vector of whole numbers.
  ghost predicate Whole(t: Tensor, n: nat) {
    t.shape == [n] && forall i :: 0 <= i < n ==> t.at([i]).Floor as real == t.at([i])
  }

  // One target per token, if any; at most one weight per token, if any, and none on a final
  // token without a target.
  ghost predicate Plain(d: Datum) {
    var n, fs := |d.tokens|, d.fields.values;
    && n > 0
    && ("target_tokens" in fs ==> Whole(fs["target_tokens"], n))
    && ("weights" in fs ==> |fs["weights"].shape| == 1 && fs["weights"].shape[0] <= n)
    && ("weights" in fs && "target_tokens" !in fs && fs["weights"].shape[0] == n ==> fs["weights"].at([n - 1]) == 0.0)
  }

  // Every token's score under its target, or of its successor, times its weight, if any.
  ghost function RowTotal(score: Score, temp: real, d: Datum): real
    requires Plain(d)
  {
    var n, fs := |d.tokens|, d.fields.values;
    if "target_tokens" in fs && "weights" in fs then
      Total(seq(fs["weights"].shape[0], i requires 0 <= i < n =>
        score(temp, d.tokens, i, fs["target_tokens"].at([i]).Floor) * fs["weights"].at([i])))
    else if "target_tokens" in fs then
      Total(seq(n, i requires 0 <= i < n => score(temp, d.tokens, i, fs["target_tokens"].at([i]).Floor)))
    else if "weights" in fs then
      Total(seq(if fs["weights"].shape[0] < n then fs["weights"].shape[0] else n - 1, i requires 0 <= i < n - 1 =>
        score(temp, d.tokens, i, d.tokens[i + 1]) * fs["weights"].at([i])))
    else
      Total(seq(n - 1, i requires 0 <= i < n - 1 => score(temp, d.tokens, i, d.tokens[i + 1])))
  }

  lemma WholeTargets(d: Datum, i: nat)
    requires Plain(d) && "target_tokens" in d.fields.values && i < |d.tokens|
    ensures Targets(d).Some? && |Targets(d).value| == |d.tokens|
    ensures Targets(d).value[i] == d.fields.values["target_tokens"].at([i]).Floor
  {
    FlatVector(d.fields.values["target_tokens"]);
  }

  lemma VectorWeights(d: Datum, i: nat)
    requires Plain(d) && "weights" in d.fields.values
    ensures var w := d.fields.values["weights"]; WeightAt(d, i) == if i < w.shape[0] then w.at([i]) else 0.0
  {
    FlatVector(d.fields.values["weights"]);
  }

  lemma PlainIsSettled(d: Datum)
    requires Plain(d)
    ensures Settled(d) && RowOk(d)
  {
    if "target_tokens" in d.fields.values {
      WholeTargets(d, 0);
    }
    forall i: nat
      ensures "weights" in d.fields.values ==>
                WeightAt(d, i) == if i < d.fields.values["weights"].shape[0] then d.fields.values["weights"].at([i]) else 0.0
    {
      if "weights" in d.fields.values {
        VectorWeights(d, i);
      }
    }
  }

  // What one position adds.
  ghost function Share(score: Score, temp: real, d: Datum, i: nat): real {
    score(temp, d.tokens, i, LabelAt(d, 0, i)) * WeightAt(d, i)
  }

  // These are the shares of the first positions, and the others add nothing.
  ghost predicate Shares(score: Score, temp: real, d: Datum, xs: seq<real>) {
    |xs| <= |d.tokens| && forall i: nat :: i < |d.tokens| ==> Share(score, temp, d, i) == if i < |xs| then xs[i] else 0.0
  }

  lemma {:induction false} SharesAddUp(score: Score, temp: real, d: Datum, xs: seq<real>, k: nat)
    requires Shares(score, temp, d, xs) && k <= |d.tokens|
    ensures RowTermUpTo(score, temp, d, k) == Total(if k < |xs| then xs[..k] else xs)
  {
    if k == 0 {
      assert xs[..0] == [];
    } else {
      SharesAddUp(score, temp, d, xs, k - 1);
      OneMoreTerm(xs, k);
      assert RowTermUpTo(score, temp, d, k) == RowTermUpTo(score, temp, d, k - 1) + Share(score, temp, d, k - 1);
    }
  }

  lemma OneMoreTerm(xs: seq<real>, k: nat)
    requires k > 0
    ensures Total(if k < |xs| then xs[..k] else xs)
         == Total(if k - 1 < |xs| then xs[..k - 1] else xs) + if k <= |xs| then xs[k - 1] else 0.0
  {
    if k <= |xs| {
      assert xs[..k][..k - 1] == xs[..k - 1] && xs[..|xs|] == xs;
    }
  }

  lemma RowTermIsTotal(score: Score, temp: real, d: Datum, xs: seq<real>)
    requires Shares(score, temp, d, xs)
    ensures RowTerm(score, temp, d) == Total(xs)
  {
    SharesAddUp(score, temp, d, xs, |d.tokens|);
    assert xs[..|xs|] == xs;
  }

  lemma RowTermWithTargets(score: Score, temp: real, d: Datum)
    requires Plain(d) && "target_tokens" in d.fields.values
    ensures RowTerm(score, temp, d) == RowTotal(score, temp, d)
  {
    var n, fs := |d.tokens|, d.fields.values;
    var xs := if "weights" in fs then
        seq(fs["weights"].shape[0], i requires 0 <= i < n =>
          score(temp, d.tokens, i, fs["target_tokens"].at([i]).Floor) * fs["weights"].at([i]))
      else seq(n, i requires 0 <= i < n => score(temp, d.tokens, i, fs["target_tokens"].at([i]).Floor));
    forall i: nat | i < n
      ensures Share(score, temp, d, i) == if i < |xs| then xs[i] else 0.0
    {
      WholeTargets(d, i);
      if "weights" in fs {
        VectorWeights(d, i);
      }
    }
    RowTermIsTotal(score, temp, d, xs);
  }

  lemma RowTermWithoutTargets(score: Score, temp: real, d: Datum)
    requires Plain(d) && "target_tokens" !in d.fields.values
    ensures RowTerm(score, temp, d) == RowTotal(score, temp, d)
  {
    var n, fs := |d.tokens|, d.fields.values;
    var xs := if "weights" in fs then
        seq(if fs["weights"].shape[0] < n then fs["weights"].shape[0] else n - 1, i requires 0 <= i < n - 1 =>
          score(temp, d.tokens, i, d.tokens[i + 1]) * fs["weights"].at([i]))
      else seq(n - 1, i requires 0 <= i < n - 1 => score(temp, d.tokens, i, d.tokens[i + 1]));
    forall i: nat | i < n
      ensures Share(score, temp, d, i) == if i < |xs| then xs[i] else 0.0
    {
      if "weights" in fs {
        VectorWeights(d, i);
      }
    }
    RowTermIsTotal(score, temp, d, xs);
  }

  // A row's own term is what its fields say.
  lemma RowTermSays(score: Score, temp: real, d: Datum)
    requires Plain(d)
    ensures RowTerm(score, temp, d) == RowTotal(score, temp, d)
  {
    if "target_tokens" in d.fields.values {
      RowTermWithTargets(score, temp, d);
    } else {
      RowTermWithoutTargets(score, temp, d);
    }
  }

  // ---------- Batches ----------

  ghost predicate AllPlain(data: seq<Datum>) {
    forall r :: 0 <= r < |data| ==> Plain(data[r])
  }

  ghost function BatchTotal(score: Score, temp: real, data: seq<Datum>): real
    requires AllPlain(data)
  {
    Total(seq(|data|, r requires 0 <= r < |data| => RowTotal(score, temp, data[r])))
  }

  lemma {:induction false} BatchTermSays(term: Datum -> real, score: Score, temp: real, data: seq<Datum>)
    requires AllPlain(data) && IsRowTerm(term, score, temp)
    ensures BatchTerm(term, data) == BatchTotal(score, temp, data)
  {
    if data != [] {
      var n := |data| - 1;
      BatchTermSays(term, score, temp, data[..n]);
      RowTermSays(score, temp, data[n]);
      var xs := seq(|data|, r requires 0 <= r < |data| => RowTotal(score, temp, data[r]));
      assert xs[..n] == seq(n, r requires 0 <= r < n => RowTotal(score, temp, data[..n][r]));
    }
  }

  lemma PlainBatch(data: seq<Datum>)
    requires AllPlain(data)
    ensures AllSettled(data) && RowsOk(data)
  {
    forall r | 0 <= r < |data|
      ensures Settled(data[r]) && RowOk(data[r])
    {
      PlainIsSettled(data[r]);
    }
  }

  // ---------- The gradient the ranks hold ----------

  // The average over ranks of what their calls scaled up.
  function MeanGradient(logs: seq<seq<BackwardCall>>): real
    requires logs != []
  {
    Total(seq(|logs|, i requires 0 <= i < |logs| => RankGradient(logs[i]))) / |logs| as real
  }

  function RankGradient(log: seq<BackwardCall>): real {
    Total(seq(|log|, k requires 0 <= k < |log| => CallGradient(log[k])))
  }

  function CallGradient(call: BackwardCall): real {
    if call.worldSize > 1 then call.worldSize as real * call.slope else call.slope
  }

  lemma {:induction false} RankGradientIsSum(log: seq<BackwardCall>)
    ensures Sum(log) == RankGradient(log)
  {
    if log != [] {
      var n := |log| - 1;
      RankGradientIsSum(log[..n]);
      var xs := seq(|log|, k requires 0 <= k < |log| => CallGradient(log[k]));
      assert xs[..n] == seq(n, k requires 0 <= k < n => CallGradient(log[..n][k]));
      assert Scaled(log[n].worldSize, log[n].slope) == CallGradient(log[n]);
    }
  }

  lemma {:induction false} TotalOfLogs(logs: seq<seq<BackwardCall>>)
    ensures TotalOf(logs) == Total(seq(|logs|, i requires 0 <= i < |logs| => RankGradient(logs[i])))
  {
    if logs != [] {
      var n := |logs| - 1;
      TotalOfLogs(logs[..n]);
      RankGradientIsSum(logs[n]);
      var xs := seq(|logs|, i requires 0 <= i < |logs| => RankGradient(logs[i]));
      assert xs[..n] == seq(n, i requires 0 <= i < n => RankGradient(logs[..n][i]));
    }
  }

  lemma ReducedIsMean(logs: seq<seq<BackwardCall>>)
    requires logs != []
    ensures Reduced(logs) == MeanGradient(logs)
  {
    TotalOfLogs(logs);
  }

  // ---------- A call ----------

  // Loss, gradient and outputs of a call on plain rows, at this temperature.
  ghost predicate CallSays(before: seq<seq<BackwardCall>>, after: seq<seq<BackwardCall>>, out: EngineOutput, netScore: Score, gradScore: Score,
                           temp: real, data: seq<Datum>, backward: bool)
    requires AllPlain(data)
  {
    && before != [] && after != []
    && out.metrics == map["loss:sum" := -BatchTotal(netScore, temp, data)]
    && MeanGradient(after) == MeanGradient(before) - (if backward then BatchTotal(gradScore, temp, data) else 0.0)
    && |out.logProbs| == |data|
    && (forall r :: 0 <= r < |data| ==> |out.logProbs[r]| == |data[r].tokens|)
    && (AllGiveTargets(data) ==> OutputsScoreTargets(out.logProbs, netScore, temp, data))
  }

  ghost predicate AllGiveTargets(data: seq<Datum>) {
    forall r :: 0 <= r < |data| ==> "target_tokens" in data[r].fields.values
  }

  ghost predicate OutputsScoreTargets(logProbs: seq<seq<real>>, score: Score, temp: real, data: seq<Datum>)
    requires AllGiveTargets(data)
  {
    && |logProbs| == |data| && (forall r :: 0 <= r < |data| ==> |logProbs[r]| == |data[r].tokens|)
    && forall r, i :: 0 <= r < |data| && 0 <= i < |data[r].tokens| ==>
                        logProbs[r][i] == score(temp, data[r].tokens, i, data[r].fields.values["target_tokens"].at([i]).Floor)
  }

  lemma FullBatchSays(before: seq<seq<BackwardCall>>, after: seq<seq<BackwardCall>>, out: EngineOutput, p: PerRow, netScore: Score, gradScore: Score,
                      temp: real, data: seq<Datum>, backward: bool)
    requires FullBatchResult(before, after, out, p, data, backward) && before != []
    requires AllPlain(data) && IsPerRow(p, netScore, gradScore, temp)
    ensures CallSays(before, after, out, netScore, gradScore, temp, data, backward)
  {
    PlainBatch(data);
    BatchTermSays(p.loss, netScore, temp, data);
    GradientSays(before, after, p, netScore, gradScore, temp, data, backward);
    if AllGiveTargets(data) {
      OutputsSay(out.logProbs, p.own, netScore, temp, data);
    }
  }

  lemma GradientSays(before: seq<seq<BackwardCall>>, after: seq<seq<BackwardCall>>, p: PerRow, netScore: Score, gradScore: Score,
                     temp: real, data: seq<Datum>, backward: bool)
    requires ReducedBy(before, after, if backward then BatchTerm(p.slope, data) else 0.0)
    requires AllPlain(data) && IsPerRow(p, netScore, gradScore, temp)
    ensures MeanGradient(after) == MeanGradient(before) - (if backward then BatchTotal(gradScore, temp, data) else 0.0)
  {
    BatchTermSays(p.slope, gradScore, temp, data);
    ReducedIsMean(before);
    ReducedIsMean(after);
  }

  lemma OwnOutputSays(score: Score, temp: real, d: Datum, i: nat)
    requires Plain(d) && "target_tokens" in d.fields.values && i < |d.tokens|
    ensures |OwnOutput(score, temp, d)| == |d.tokens|
    ensures OwnOutput(score, temp, d)[i] == score(temp, d.tokens, i, d.fields.values["target_tokens"].at([i]).Floor)
  {
    WholeTargets(d, i);
    assert OwnOutput(score, temp, d)[i] == score(temp, d.tokens, i, LabelAt(d, 0, i));
  }

  lemma OutputsSay(logProbs: seq<seq<real>>, own: Datum -> seq<real>, score: Score, temp: real, data: seq<Datum>)
    requires AllPlain(data) && IsOwnOutput(own, score, temp)
    requires AllGiveTargets(data) && (AllTargeted(data) ==> logProbs == OwnOutputs(own, data))
    ensures OutputsScoreTargets(logProbs, score, temp, data)
  {
    forall r | 0 <= r < |data|
      ensures Targets(data[r]).Some?
    {
      WholeTargets(data[r], 0);
    }
    assert AllTargeted(data);
    forall r | 0 <= r < |data|
      ensures logProbs[r] == OwnOutput(score, temp, data[r]) && |logProbs[r]| == |data[r].tokens|
    {
      assert own(data[r]) == OwnOutput(score, temp, data[r]);
    }
    forall r, i | 0 <= r < |data| && 0 <= i < |data[r].tokens|
      ensures logProbs[r][i] == score(temp, data[r].tokens, i, data[r].fields.values["target_tokens"].at([i]).Floor)
    {
      OwnOutputSays(score, temp, data[r], i);
    }
  }

  // Networks that see only their own row give every call a meaning.
  lemma MeaningOf(net: Network, netScore: Score, grad: Network, gradScore: Score, temp: real) returns (m: Meaning, p: PerRow)
    requires RowLocal(net, netScore) && RowLocal(grad, gradScore)
    ensures Means(m, net, grad, temp) && RowWise(m, p) && IsPerRow(p, netScore, gradScore, temp)
  {
    m := Meaning(micro => -MicroDot(net, temp, micro), micro => -MicroDot(grad, temp, micro), micro => MicroOutputs(net, temp, micro));
    p := PerRow(d => RowTerm(netScore, temp, d), d => RowTerm(gradScore, temp, d), d => OwnOutput(netScore, temp, d));
    RowLocalIsRowWise(net, netScore, grad, gradScore, temp, m, p);
  }

  // forward_backward over several ranks.
  method TrainPlain(actors: seq<TrainModule>, net: Network, grad: Network, data: seq<Datum>, temperature: Option<real>, configured: int,
                    backward: bool, ghost netScore: Score, ghost gradScore: Score)
    returns (r: Result<EngineOutput, ForwardError>)
    requires RowLocal(net, netScore) && RowLocal(grad, gradScore)
    requires actors != [] && Distinct(actors) && AllValid(data)
    modifies actors
    ensures data != [] && AllPlain(data) && FieldsBatch(data) && |data| >= |actors| ==>
              && r.Ok?
              && CallSays(old(Logs(actors)), Logs(actors), r.value, netScore, gradScore,
                          if temperature.Some? && temperature.value != 0.0 then temperature.value else 1.0, data, backward)
  {
    ghost var before := Logs(actors);
    ghost var m, p := MeaningOf(net, netScore, grad, gradScore, EffectiveTemperature(temperature));
    r := TrainWellFormed(actors, net, grad, data, temperature, configured, backward, m, p);
    if data != [] && AllPlain(data) && FieldsBatch(data) && |data| >= |actors| {
      PlainBatch(data);
      FullBatchSays(before, Logs(actors), r.value, p, netScore, gradScore, EffectiveTemperature(temperature), data, backward);
    }
  }

  // Nothing but a malformed row, a field that does not batch, or too few rows makes a call fail.
  method TrainWellFormed(actors: seq<TrainModule>, net: Network, grad: Network, data: seq<Datum>, temperature: Option<real>, configured: int,
                         backward: bool, ghost m: Meaning, ghost p: PerRow)
    returns (r: Result<EngineOutput, ForwardError>)
    requires Means(m, net, grad, EffectiveTemperature(temperature)) && RowWise(m, p)
    requires actors != [] && Distinct(actors) && AllValid(data)
    modifies actors
    ensures data != [] && RowsOk(data) && FieldsBatch(data) && |data| >= |actors| ==>
              r.Ok? && FullBatchResult(old(Logs(actors)), Logs(actors), r.value, p, data, backward)
  {
    ghost var parts;
    r, parts := Forward(actors, net, grad, data, temperature, configured, backward, m, p);
  }

  // ... and in one process.
  method TrainPlainAlone(module_: TrainModule, net: Network, grad: Network, data: seq<Datum>, temperature: Option<real>, configured: int,
                         backward: bool, ghost netScore: Score, ghost gradScore: Score)
    returns (r: Result<EngineOutput, ForwardError>)
    requires RowLocal(net, netScore) && RowLocal(grad, gradScore) && AllValid(data)
    modifies module_
    ensures data != [] && AllPlain(data) && FieldsBatch(data) ==>
              && r.Ok?
              && CallSays([old(module_.backwards)], [module_.backwards], r.value, netScore, gradScore,
                          if temperature.Some? && temperature.value != 0.0 then temperature.value else 1.0, data, backward)
  {
    ghost var before := module_.backwards;
    ghost var m, p := MeaningOf(net, netScore, grad, gradScore, EffectiveTemperature(temperature));
    r := ForwardAlone(module_, net, grad, data, temperature, configured, backward, m, p);
    if data != [] && AllPlain(data) && FieldsBatch(data) {
      PlainBatch(data);
      FullBatchSays([before], [module_.backwards], r.value, p, netScore, gradScore, EffectiveTemperature(temperature), data, backward);
    }
  }

  // A successful training call counts, at its own temperature.
  ghost function CallTotal(score: Score, call: Call, r: CallResult): real
    requires AllPlain(call.data)
  {
    var t := call.temperature;
    if call.backward && r.Ok? then BatchTotal(score, if t.Some? && t.value != 0.0 then t.value else 1.0, call.data) else 0.0
  }

  ghost function CallTotals(score: Score, calls: seq<Call>, rs: seq<CallResult>): (xs: seq<real>)
    requires |calls| == |rs| && AllCallsPlain(calls)
    ensures |xs| == |calls| && forall i :: 0 <= i < |calls| ==> xs[i] == CallTotal(score, calls[i], rs[i])
  {
    seq(|calls|, i requires 0 <= i < |calls| => CallTotal(score, calls[i], rs[i]))
  }

  ghost predicate AllCallsPlain(calls: seq<Call>) {
    forall i :: 0 <= i < |calls| ==> AllPlain(calls[i].data)
  }

  ghost predicate AllPerRow(terms: Terms, netScore: Score, gradScore: Score) {
    forall temp {:trigger terms(temp)} :: IsPerRow(terms(temp), netScore, gradScore, temp)
  }

  // Calls before one optimizer step add up.
  lemma {:induction false} TrainedTermSays(terms: Terms, netScore: Score, gradScore: Score, calls: seq<Call>, rs: seq<CallResult>)
    requires |calls| == |rs| && AllCallsPlain(calls) && AllPerRow(terms, netScore, gradScore)
    ensures TrainedTerm(terms, calls, rs) == Total(CallTotals(gradScore, calls, rs))
  {
    if calls != [] {
      var n := |calls| - 1;
      TrainedTermSays(terms, netScore, gradScore, calls[..n], rs[..n]);
      CallTermSays(terms, netScore, gradScore, calls[n], rs[n]);
      assert CallTotals(gradScore, calls, rs)[..n] == CallTotals(gradScore, calls[..n], rs[..n]);
    }
  }

  lemma CallTermSays(terms: Terms, netScore: Score, gradScore: Score, call: Call, r: CallResult)
    requires AllPlain(call.data) && AllPerRow(terms, netScore, gradScore)
    ensures CallTerm(terms, call, r) == CallTotal(gradScore, call, r)
  {
    var temp := EffectiveTemperature(call.temperature);
    assert IsPerRow(terms(temp), netScore, gradScore, temp);
    BatchTermSays(terms(temp).slope, gradScore, temp, call.data);
  }

  // ---------- What the engine hands to the network ----------

  // Tokens and zeros, the length mask, and the label of every position.
  lemma PreparedSays(data: seq<Datum>, r: nat, i: nat)
    requires AllPlain(data) && r < |data| && i < MaxLen(data)
    ensures var d, batch := data[r], Prepared(data);
            && |batch.inputIds| == |batch.mask| == |batch.labels| == |data|
            && |batch.inputIds[r]| == |batch.mask[r]| == |batch.labels[r]| == MaxLen(data)
            && batch.inputIds[r][i] == (if i < |d.tokens| then d.tokens[i] else 0)
            && (batch.mask[r][i] <==> i < |d.tokens|)
            && (i < |d.tokens| && "target_tokens" in d.fields.values ==>
                  batch.labels[r][i] == d.fields.values["target_tokens"].at([i]).Floor)
            && ("target_tokens" !in d.fields.values ==>
                  (i + 1 < |d.tokens| ==> batch.labels[r][i] == d.tokens[i + 1])
                  && (i + 1 == |d.tokens| ==> batch.labels[r][i] == data[(r + 1) % |data|].tokens[0]))
  {
    LabelSays(data, r, i);
    assert Prepared(data).labels[r][i] == LabelAt(data[r], NextFirst(data, r), i);
  }

  lemma LabelSays(data: seq<Datum>, r: nat, i: nat)
    requires AllPlain(data) && r < |data|
    ensures var d, y := data[r], LabelAt(data[r], NextFirst(data, r), i);
            && (i < |d.tokens| && "target_tokens" in d.fields.values ==> y == d.fields.values["target_tokens"].at([i]).Floor)
            && ("target_tokens" !in d.fields.values ==>
                  (i + 1 < |d.tokens| ==> y == d.tokens[i + 1])
                  && (i + 1 == |d.tokens| ==> y == data[(r + 1) % |data|].tokens[0]))
  {
    NextRow(data, r);
    if "target_tokens" in data[r].fields.values && i < |data[r].tokens| {
      WholeTargets(data[r], i);
    }
  }

  lemma NextRow(data: seq<Datum>, r: nat)
    requires AllPlain(data) && r < |data|
    ensures data[(r + 1) % |data|].tokens != [] && NextFirst(data, r) == data[(r + 1) % |data|].tokens[0]
  {
    assert Plain(data[(r + 1) % |data|]);
    assert (r + 1) % |data| == if r + 1 < |data| then r + 1 else 0;
  }

  // Truncation toward zero.
  lemma TruncateTowardZero(x: real)
    ensures x >= 0.0 ==> Truncate(x) as real <= x < Truncate(x) as real + 1.0
    ensures x <= 0.0 ==> Truncate(x) as real - 1.0 < x <= Truncate(x) as real
  {
  }
}
