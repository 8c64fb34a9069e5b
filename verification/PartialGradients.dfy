// What a failing call leaves behind.  Generic fields are validated before the
// first backward(), but a row's own tokens and targets are only checked when its
// micro-batch is prepared, after earlier micro-batches have been
// back-propagated (src/tuft/backends/fsdp_engine.py).
module PartialGradients {
  import opened Wrappers
  import opened LossInputs
  import opened Sharding
  import opened TrainingRows
  import opened FsdpEngine
  import opened FsdpTraining

  // ---------- The weight each input of the network carries ----------

  // Where the network is evaluated: padded row, mask, position, label.
  datatype Input = Input(row: seq<int>, mask: seq<bool>, pos: nat, lab: int)

  datatype Weighed = Weighed(at: Input, weight: real)

  function Value(f: Network, temp: real, at: Input): real {
    f(temp, at.row, at.mask, at.pos, at.lab)
  }

  // The evaluations one padded row takes part in, position by position.
  function RowInputs(d: Datum, width: nat, fin: int, k: nat): seq<Weighed>
    requires |d.tokens| <= width
  {
    if k == 0 then []
    else RowInputs(d, width, fin, k - 1)
         + [Weighed(Input(PadRow(d.tokens, width, 0), Mask(|d.tokens|, width), k - 1, LabelAt(d, fin, k - 1)), WeightAt(d, k - 1))]
  }

  function RowsInputs(micro: seq<Datum>, k: nat): seq<Weighed>
    requires k <= |micro|
  {
    if k == 0 then []
    else RowsInputs(micro, k - 1) + RowInputs(micro[k - 1], MaxLen(micro), NextFirst(micro, k - 1), MaxLen(micro))
  }

  function MicroInputs(micro: seq<Datum>): seq<Weighed> {
    RowsInputs(micro, |micro|)
  }

  function AllInputs(ms: seq<seq<Datum>>): seq<Weighed> {
    if ms == [] then [] else AllInputs(ms[..|ms| - 1]) + MicroInputs(ms[|ms| - 1])
  }

  function Dot(f: Network, temp: real, es: seq<Weighed>): real {
    if es == [] then 0.0 else Dot(f, temp, es[..|es| - 1]) + Times(Value(f, temp, es[|es| - 1].at), es[|es| - 1].weight)
  }

  function Times(a: real, b: real): real {
    a * b
  }

  // The total weight of one input.
  function Total(es: seq<Weighed>, at: Input): real {
    if es == [] then 0.0 else Total(es[..|es| - 1], at) + if es[|es| - 1].at == at then es[|es| - 1].weight else 0.0
  }

  // The weights of every input cancel.
  ghost predicate Cancels(es: seq<Weighed>) {
    forall at :: Total(es, at) == 0.0
  }

  lemma {:induction false} DotAppend(f: Network, temp: real, a: seq<Weighed>, b: seq<Weighed>)
    ensures Dot(f, temp, a + b) == Dot(f, temp, a) + Dot(f, temp, b)
  {
    if b == [] {
      assert a + b == a;
    } else {
      DotAppend(f, temp, a, b[..|b| - 1]);
      assert (a + b)[..|a + b| - 1] == a + b[..|b| - 1];
    }
  }

  lemma {:induction false} RowDotIsDot(f: Network, temp: real, d: Datum, width: nat, fin: int, k: nat)
    requires |d.tokens| <= width
    ensures RowDot(f, temp, d, width, fin, k) == Dot(f, temp, RowInputs(d, width, fin, k))
  {
    if k > 0 {
      RowDotIsDot(f, temp, d, width, fin, k - 1);
      var es := RowInputs(d, width, fin, k);
      assert es[..|es| - 1] == RowInputs(d, width, fin, k - 1);
    }
  }

  lemma {:induction false} RowDotsAreDot(f: Network, temp: real, micro: seq<Datum>, k: nat)
    requires k <= |micro|
    ensures SumReals(RowDots(f, temp, micro)[..k]) == Dot(f, temp, RowsInputs(micro, k))
  {
    if k > 0 {
      RowDotsAreDot(f, temp, micro, k - 1);
      var w, fin := MaxLen(micro), NextFirst(micro, k - 1);
      RowDotIsDot(f, temp, micro[k - 1], w, fin, w);
      DotAppend(f, temp, RowsInputs(micro, k - 1), RowInputs(micro[k - 1], w, fin, w));
      assert RowDots(f, temp, micro)[..k][..k - 1] == RowDots(f, temp, micro)[..k - 1];
    }
  }

  lemma MicroDotIsDot(f: Network, temp: real, micro: seq<Datum>)
    ensures MicroDot(f, temp, micro) == Dot(f, temp, MicroInputs(micro))
  {
    RowDotsAreDot(f, temp, micro, |micro|);
    assert RowDots(f, temp, micro)[..|micro|] == RowDots(f, temp, micro);
  }

  // ---------- Cancelling weights ----------

  function Without(es: seq<Weighed>, at: Input): (rest: seq<Weighed>)
    ensures |rest| <= |es|
  {
    if es == [] then []
    else
      var last := es[|es| - 1];
      Without(es[..|es| - 1], at) + if last.at == at then [] else [last]
  }

  lemma {:induction false} TakeOut(f: Network, temp: real, es: seq<Weighed>, at: Input)
    ensures Dot(f, temp, es) == Dot(f, temp, Without(es, at)) + Times(Value(f, temp, at), Total(es, at))
  {
    if es != [] {
      var init, last := es[..|es| - 1], es[|es| - 1];
      TakeOut(f, temp, init, at);
      if last.at == at {
        assert Without(es, at) == Without(init, at);
        Distribute(Value(f, temp, at), Total(init, at), last.weight, Total(es, at));
      } else {
        OneDot(f, temp, Without(init, at), last);
      }
    }
  }

  lemma OneDot(f: Network, temp: real, es: seq<Weighed>, e: Weighed)
    ensures Dot(f, temp, es + [e]) == Dot(f, temp, es) + Times(Value(f, temp, e.at), e.weight)
  {
    assert (es + [e])[..|es|] == es;
  }

  lemma Distribute(v: real, a: real, b: real, c: real)
    requires c == a + b
    ensures Times(v, c) == Times(v, a) + Times(v, b)
  {
  }

  lemma {:induction false} TotalAppend(a: seq<Weighed>, b: seq<Weighed>, at: Input)
    ensures Total(a + b, at) == Total(a, at) + Total(b, at)
  {
    if b == [] {
      assert a + b == a;
    } else {
      TotalAppend(a, b[..|b| - 1], at);
      assert (a + b)[..|a + b| - 1] == a + b[..|b| - 1];
    }
  }

  lemma {:induction false} TotalWithout(es: seq<Weighed>, gone: Input, at: Input)
    ensures Total(Without(es, gone), at) == if at == gone then 0.0 else Total(es, at)
  {
    if es != [] {
      var init, last := es[..|es| - 1], es[|es| - 1];
      TotalWithout(init, gone, at);
      TotalAppend(Without(init, gone), if last.at == gone then [] else [last], at);
      assert Total([last], at) == Total([], at) + if last.at == at then last.weight else 0.0;
    }
  }

  lemma {:induction false} CancellingDot(f: Network, temp: real, es: seq<Weighed>)
    requires Cancels(es)
    ensures Dot(f, temp, es) == 0.0
    decreases |es|
  {
    if es != [] {
      var init, last := es[..|es| - 1], es[|es| - 1];
      TakeOut(f, temp, es, last.at);
      forall at
        ensures Total(Without(es, last.at), at) == 0.0
      {
        TotalWithout(es, last.at, at);
      }
      CancellingDot(f, temp, Without(es, last.at));
    }
  }

  // One at a single input, zero elsewhere.
  function Indicator(at: Input): Network {
    (temp: real, row: seq<int>, mask: seq<bool>, i: nat, lab: int) => if Input(row, mask, i, lab) == at then 1.0 else 0.0
  }

  lemma {:induction false} IndicatorDot(temp: real, es: seq<Weighed>, at: Input)
    ensures Dot(Indicator(at), temp, es) == Total(es, at)
  {
    if es != [] {
      IndicatorDot(temp, es[..|es| - 1], at);
    }
  }

  // ---------- Exactly when a failing call leaves no gradient ----------

  // What the backward() calls of these micro-batches add up to, at the call's temperature.
  ghost predicate LeavesNothing(good: seq<seq<Datum>>, worldSize: nat, temp: real) {
    forall grad: Network, slope: seq<Datum> -> real | IsSlope(slope, grad, temp) :: Sum(BackwardLog(slope, worldSize, good)) == 0.0
  }

  ghost predicate IsSlope(slope: seq<Datum> -> real, grad: Network, temp: real) {
    forall micro {:trigger MicroDot(grad, temp, micro)} :: slope(micro) == -MicroDot(grad, temp, micro)
  }

  lemma {:induction false} TotalSlope(slope: seq<Datum> -> real, grad: Network, temp: real, ms: seq<seq<Datum>>)
    requires IsSlope(slope, grad, temp)
    ensures LossTotal(slope, ms) == -Dot(grad, temp, AllInputs(ms))
  {
    if ms != [] {
      var init, last := ms[..|ms| - 1], ms[|ms| - 1];
      TotalSlope(slope, grad, temp, init);
      MicroDotIsDot(grad, temp, last);
      DotAppend(grad, temp, AllInputs(init), MicroInputs(last));
    }
  }

  // Whatever the signs of the weights: nothing is left under any network if and only if
  // the weights of every padded row, mask, position and label add up to zero.
  lemma FailureIsCleanExactlyWhenWeightsCancel(good: seq<seq<Datum>>, worldSize: nat, temp: real)
    ensures LeavesNothing(good, worldSize, temp) <==> Cancels(AllInputs(good))
  {
    if Cancels(AllInputs(good)) {
      forall grad: Network, slope: seq<Datum> -> real | IsSlope(slope, grad, temp)
        ensures Sum(BackwardLog(slope, worldSize, good)) == 0.0
      {
        CancellingDot(grad, temp, AllInputs(good));
        NothingTimesScale(slope, grad, good, worldSize, temp);
      }
    }
    if LeavesNothing(good, worldSize, temp) {
      forall at
        ensures Total(AllInputs(good), at) == 0.0
      {
        var grad := Indicator(at);
        var slope := micro => -MicroDot(grad, temp, micro);
        assert IsSlope(slope, grad, temp);
        TotalSlope(slope, grad, temp, good);
        LogIsScaledTotal(slope, worldSize, good);
        IndicatorDot(temp, AllInputs(good), at);
        ScaleIsNonZero(worldSize, LossTotal(slope, good));
      }
    }
  }

  lemma ScaleIsNonZero(worldSize: nat, x: real)
    requires Scaled(worldSize, x) == 0.0
    ensures x == 0.0
  {
  }

  // ---------- The same for networks that see a row only ----------

  // How many positions a mask of the form 1..10..0 leaves visible.
  function Visible(mask: seq<bool>): (n: nat)
    ensures n <= |mask|
  {
    if mask == [] || !mask[0] then 0 else 1 + Visible(mask[1..])
  }

  lemma {:induction false} VisibleOfMask(n: nat, width: nat)
    requires n <= width
    ensures Visible(Mask(n, width)) == n
  {
    if n > 0 {
      assert Mask(n, width)[1..] == Mask(n - 1, width - 1);
      VisibleOfMask(n - 1, width - 1);
    }
  }

  // At a real position the padding is cut off; elsewhere the input stays as it is.
  function Unpadded(at: Input): Input {
    var n := Visible(at.mask);
    if at.pos < n <= |at.row| && at.row == PadRow(at.row[..n], |at.row|, 0) && at.mask == Mask(n, |at.row|)
    then Input(at.row[..n], Mask(n, n), at.pos, at.lab)
    else at
  }

  lemma UnpaddedRow(row: seq<int>, width: nat, i: nat, lab: int)
    requires i < |row| <= width
    ensures Unpadded(Input(PadRow(row, width, 0), Mask(|row|, width), i, lab)) == Input(row, Mask(|row|, |row|), i, lab)
  {
    VisibleOfMask(|row|, width);
    assert PadRow(row, width, 0)[..|row|] == row;
  }

  function UnpaddedAll(es: seq<Weighed>): (us: seq<Weighed>)
    ensures |us| == |es|
  {
    if es == [] then []
    else UnpaddedAll(es[..|es| - 1]) + [Weighed(Unpadded(es[|es| - 1].at), es[|es| - 1].weight)]
  }

  lemma RowLocalValue(f: Network, score: Score, temp: real, at: Input)
    requires RowLocal(f, score)
    ensures Value(f, temp, at) == Value(f, temp, Unpadded(at))
  {
    if Unpadded(at) != at {
      var row := Unpadded(at).row;
      assert f(temp, PadRow(row, |at.row|, 0), Mask(|row|, |at.row|), at.pos, at.lab) == score(temp, row, at.pos, at.lab);
      assert f(temp, PadRow(row, |row|, 0), Mask(|row|, |row|), at.pos, at.lab) == score(temp, row, at.pos, at.lab);
      assert PadRow(row, |row|, 0) == row;
    }
  }

  lemma {:induction false} RowLocalDot(f: Network, score: Score, temp: real, es: seq<Weighed>)
    requires RowLocal(f, score)
    ensures Dot(f, temp, es) == Dot(f, temp, UnpaddedAll(es))
  {
    if es != [] {
      var init, last := es[..|es| - 1], es[|es| - 1];
      RowLocalDot(f, score, temp, init);
      RowLocalValue(f, score, temp, last.at);
      OneDot(f, temp, UnpaddedAll(init), Weighed(Unpadded(last.at), last.weight));
    }
  }

  // One at everything that unpads to a single input, zero elsewhere.
  function LocalIndicator(at: Input): Network {
    (temp: real, row: seq<int>, mask: seq<bool>, i: nat, lab: int) => if Unpadded(Input(row, mask, i, lab)) == at then 1.0 else 0.0
  }

  lemma LocalIndicatorIsRowLocal(at: Input) returns (score: Score)
    ensures RowLocal(LocalIndicator(at), score)
  {
    score := (temp: real, row: seq<int>, i: nat, lab: int) => if Input(row, Mask(|row|, |row|), i, lab) == at then 1.0 else 0.0;
    forall temp: real, row: seq<int>, width: nat, i: nat, lab: int | i < |row| <= width
      ensures LocalIndicator(at)(temp, PadRow(row, width, 0), Mask(|row|, width), i, lab) == score(temp, row, i, lab)
    {
      UnpaddedRow(row, width, i, lab);
    }
  }

  lemma {:induction false} LocalIndicatorDot(temp: real, es: seq<Weighed>, at: Input)
    ensures Dot(LocalIndicator(at), temp, es) == Total(UnpaddedAll(es), at)
  {
    if es != [] {
      var init, last := es[..|es| - 1], es[|es| - 1];
      LocalIndicatorDot(temp, init, at);
      TotalAppend(UnpaddedAll(init), [Weighed(Unpadded(last.at), last.weight)], at);
      assert UnpaddedAll(es)[..|es| - 1] == UnpaddedAll(init);
    }
  }

  ghost predicate LeavesNothingRowLocally(good: seq<seq<Datum>>, worldSize: nat, temp: real) {
    forall grad: Network, score: Score, slope: seq<Datum> -> real | RowLocal(grad, score) && IsSlope(slope, grad, temp) ::
      Sum(BackwardLog(slope, worldSize, good)) == 0.0
  }

  // Weights of one row and label also cancel across different paddings then, and nothing else does.
  lemma RowLocalFailureIsCleanExactlyWhenRowWeightsCancel(good: seq<seq<Datum>>, worldSize: nat, temp: real)
    ensures LeavesNothingRowLocally(good, worldSize, temp) <==> Cancels(UnpaddedAll(AllInputs(good)))
  {
    if Cancels(UnpaddedAll(AllInputs(good))) {
      forall grad: Network, score: Score, slope: seq<Datum> -> real | RowLocal(grad, score) && IsSlope(slope, grad, temp)
        ensures Sum(BackwardLog(slope, worldSize, good)) == 0.0
      {
        CancellingRowsLeaveNothing(grad, score, slope, good, worldSize, temp);
      }
    }
    if LeavesNothingRowLocally(good, worldSize, temp) {
      forall at
        ensures Total(UnpaddedAll(AllInputs(good)), at) == 0.0
      {
        RowWeightCancels(good, worldSize, temp, at);
      }
    }
  }

  lemma RowWeightCancels(good: seq<seq<Datum>>, worldSize: nat, temp: real, at: Input)
    requires LeavesNothingRowLocally(good, worldSize, temp)
    ensures Total(UnpaddedAll(AllInputs(good)), at) == 0.0
  {
    var score := LocalIndicatorIsRowLocal(at);
    NothingLeftOf(LocalIndicator(at), score, good, worldSize, temp);
    LocalIndicatorDot(temp, AllInputs(good), at);
  }

  lemma CancellingRowsLeaveNothing(grad: Network, score: Score, slope: seq<Datum> -> real, good: seq<seq<Datum>>, worldSize: nat, temp: real)
    requires RowLocal(grad, score) && IsSlope(slope, grad, temp) && Cancels(UnpaddedAll(AllInputs(good)))
    ensures Sum(BackwardLog(slope, worldSize, good)) == 0.0
  {
    CancellingRowsDot(grad, score, temp, AllInputs(good));
    NothingTimesScale(slope, grad, good, worldSize, temp);
  }

  lemma CancellingRowsDot(f: Network, score: Score, temp: real, es: seq<Weighed>)
    requires RowLocal(f, score) && Cancels(UnpaddedAll(es))
    ensures Dot(f, temp, es) == 0.0
  {
    RowLocalDot(f, score, temp, es);
    CancellingDot(f, temp, UnpaddedAll(es));
  }

  lemma NothingTimesScale(slope: seq<Datum> -> real, grad: Network, good: seq<seq<Datum>>, worldSize: nat, temp: real)
    requires IsSlope(slope, grad, temp) && Dot(grad, temp, AllInputs(good)) == 0.0
    ensures Sum(BackwardLog(slope, worldSize, good)) == 0.0
  {
    TotalSlope(slope, grad, temp, good);
    LogIsScaledTotal(slope, worldSize, good);
  }

  lemma NothingLeftOf(grad: Network, score: Score, good: seq<seq<Datum>>, worldSize: nat, temp: real)
    requires RowLocal(grad, score) && LeavesNothingRowLocally(good, worldSize, temp)
    ensures Dot(grad, temp, AllInputs(good)) == 0.0
  {
    var slope := micro => -MicroDot(grad, temp, micro);
    assert IsSlope(slope, grad, temp);
    TotalSlope(slope, grad, temp, good);
    LogIsScaledTotal(slope, worldSize, good);
    ScaleIsNonZero(worldSize, LossTotal(slope, good));
  }

  // ---------- What a failing call leaves, call by call ----------

  // A failing call without Ray leaves behind exactly the weighted evaluations of its
  // micro-batches before the malformed one.
  method ForwardAloneLeaves(module_: TrainModule, net: Network, grad: Network, data: seq<Datum>, temperature: Option<real>,
                            configured: int, backward: bool, ghost m: Meaning, ghost p: PerRow)
    returns (r: Result<EngineOutput, ForwardError>)
    requires Means(m, net, grad, EffectiveTemperature(temperature)) && RowWise(m, p)
    requires AllValid(data)
    modifies module_
    ensures r.Err? ==>
              Sum(module_.backwards) == Sum(old(module_.backwards))
                - if backward && r.error.Engine?
                  then Dot(grad, EffectiveTemperature(temperature), AllInputs(GoodPrefix(Micros(data, AloneMicroSize(|data|, configured)))))
                  else 0.0
  {
    ghost var before := module_.backwards;
    r := ForwardAlone(module_, net, grad, data, temperature, configured, backward, m, p);
    if r.Err? && r.error.Engine? && backward {
      ghost var good := GoodPrefix(Micros(data, AloneMicroSize(|data|, configured)));
      SumAppend(before, BackwardLog(m.slope, 1, good));
      LogIsScaledTotal(m.slope, 1, good);
      TotalSlope(m.slope, grad, EffectiveTemperature(temperature), good);
    } else if r.Err? && r.error.Engine? {
      assert before + [] == before;
    }
  }

  // Over several ranks the common gradient is off by what all ranks ran before their malformed rows.
  method ForwardLeaves(actors: seq<TrainModule>, net: Network, grad: Network, data: seq<Datum>, temperature: Option<real>,
                       configured: int, backward: bool, ghost m: Meaning, ghost p: PerRow)
    returns (r: Result<EngineOutput, ForwardError>, ghost parts: seq<seq<seq<Datum>>>)
    requires Means(m, net, grad, EffectiveTemperature(temperature)) && RowWise(m, p)
    requires actors != [] && Distinct(actors) && AllValid(data)
    modifies actors
    ensures r.Err? && r.error.Engine? ==> |parts| == |actors| && Flatten(Flatten(parts)) == data && !RowsOk(data)
    ensures r.Err? ==>
              Reduced(Logs(actors)) == Reduced(old(Logs(actors)))
                - if backward && r.error.Engine?
                  then Dot(grad, EffectiveTemperature(temperature), AllInputs(Flatten(RunsOf(parts))))
                  else 0.0
  {
    ghost var before := Logs(actors);
    r, parts := Forward(actors, net, grad, data, temperature, configured, backward, m, p);
    if r.Err? && r.error.Engine? {
      ReducedGradient(before, m.slope, RunsOf(parts), backward);
      TotalSlope(m.slope, grad, EffectiveTemperature(temperature), Flatten(RunsOf(parts)));
    }
  }

  ghost predicate Weightless(micro: seq<Datum>) {
    forall r, i | 0 <= r < |micro| && 0 <= i < MaxLen(micro) :: WeightAt(micro[r], i) == 0.0
  }

  ghost predicate NonNegative(micro: seq<Datum>) {
    forall r, i | 0 <= r < |micro| && 0 <= i :: WeightAt(micro[r], i) >= 0.0
  }

  // ---------- Sums of non-negative numbers ----------

  lemma {:induction false} NonNegativeSum(xs: seq<real>)
    requires forall k :: 0 <= k < |xs| ==> xs[k] >= 0.0
    ensures SumReals(xs) >= 0.0
    ensures SumReals(xs) == 0.0 <==> forall k :: 0 <= k < |xs| ==> xs[k] == 0.0
  {
    if xs != [] {
      var init := xs[..|xs| - 1];
      NonNegativeSum(init);
      assert forall k :: 0 <= k < |init| ==> init[k] == xs[k];
      if forall k :: 0 <= k < |init| ==> init[k] == 0.0 {
        if xs[|xs| - 1] == 0.0 {
          forall k | 0 <= k < |xs|
            ensures xs[k] == 0.0
          {
            if k < |init| {
              assert init[k] == xs[k];
            }
          }
        }
      } else {
        var k :| 0 <= k < |init| && init[k] != 0.0;
        assert xs[k] != 0.0;
      }
    }
  }

  // ---------- The constant network sees exactly the weights ----------

  function Constant(): Network {
    (temp, row, mask, i, lab) => 1.0
  }

  lemma {:induction false} ConstantRowDot(d: Datum, width: nat, fin: int, k: nat)
    requires |d.tokens| <= width && k <= width && forall i :: 0 <= i ==> WeightAt(d, i) >= 0.0
    ensures RowDot(Constant(), 1.0, d, width, fin, k) >= 0.0
    ensures RowDot(Constant(), 1.0, d, width, fin, k) == 0.0 <==> forall i :: 0 <= i < k ==> WeightAt(d, i) == 0.0
  {
    if k > 0 {
      ConstantRowDot(d, width, fin, k - 1);
      assert RowDot(Constant(), 1.0, d, width, fin, k) == RowDot(Constant(), 1.0, d, width, fin, k - 1) + WeightAt(d, k - 1);
    }
  }

  lemma ConstantMicroDot(micro: seq<Datum>)
    requires NonNegative(micro)
    ensures MicroDot(Constant(), 1.0, micro) >= 0.0
    ensures MicroDot(Constant(), 1.0, micro) == 0.0 ==> Weightless(micro)
  {
    var xs := RowDots(Constant(), 1.0, micro);
    forall r | 0 <= r < |micro|
      ensures xs[r] >= 0.0
      ensures xs[r] == 0.0 ==> forall i :: 0 <= i < MaxLen(micro) ==> WeightAt(micro[r], i) == 0.0
    {
      ConstantRowDot(micro[r], MaxLen(micro), NextFirst(micro, r), MaxLen(micro));
    }
    NonNegativeSum(xs);
  }

  lemma {:induction false} WeightlessRowDot(f: Network, temp: real, d: Datum, width: nat, fin: int, k: nat)
    requires |d.tokens| <= width && k <= width && forall i :: 0 <= i < width ==> WeightAt(d, i) == 0.0
    ensures RowDot(f, temp, d, width, fin, k) == 0.0
  {
    if k > 0 {
      WeightlessRowDot(f, temp, d, width, fin, k - 1);
      assert WeightAt(d, k - 1) == 0.0;
    }
  }

  lemma WeightlessMicroDot(f: Network, temp: real, micro: seq<Datum>)
    requires Weightless(micro)
    ensures MicroDot(f, temp, micro) == 0.0
  {
    var xs := RowDots(f, temp, micro);
    forall r | 0 <= r < |micro|
      ensures xs[r] == 0.0
    {
      WeightlessRowDot(f, temp, micro[r], MaxLen(micro), NextFirst(micro, r), MaxLen(micro));
    }
    NonNegativeSum(xs);
  }

  // ---------- Weights that cannot cancel ----------

  // Row by row, no sum under the constant network is negative, and none is zero but for weightless rows.
  ghost predicate Grounded(micro: seq<Datum>) {
    var x := Dot(Constant(), 1.0, MicroInputs(micro));
    x >= 0.0 && (x == 0.0 ==> Weightless(micro))
  }

  lemma NonNegativeGrounded(micro: seq<Datum>)
    requires NonNegative(micro)
    ensures Grounded(micro)
  {
    ConstantMicroDot(micro);
    MicroDotIsDot(Constant(), 1.0, micro);
  }

  lemma {:induction false} GroundedTotal(ms: seq<seq<Datum>>)
    requires forall k :: 0 <= k < |ms| ==> Grounded(ms[k])
    ensures Dot(Constant(), 1.0, AllInputs(ms)) >= 0.0
    ensures Dot(Constant(), 1.0, AllInputs(ms)) == 0.0 ==> forall k :: 0 <= k < |ms| ==> Weightless(ms[k])
  {
    if ms != [] {
      var init, last := ms[..|ms| - 1], ms[|ms| - 1];
      assert forall k :: 0 <= k < |init| ==> init[k] == ms[k];
      GroundedTotal(init);
      DotAppend(Constant(), 1.0, AllInputs(init), MicroInputs(last));
      GroundedLast(ms, Dot(Constant(), 1.0, AllInputs(init)), Dot(Constant(), 1.0, MicroInputs(last)));
    }
  }

  lemma GroundedLast(ms: seq<seq<Datum>>, x: real, y: real)
    requires ms != [] && Grounded(ms[|ms| - 1]) && y == Dot(Constant(), 1.0, MicroInputs(ms[|ms| - 1]))
    requires x >= 0.0 && (x == 0.0 ==> forall k :: 0 <= k < |ms| - 1 ==> Weightless(ms[k]))
    ensures x + y >= 0.0 && (x + y == 0.0 ==> forall k :: 0 <= k < |ms| ==> Weightless(ms[k]))
  {
  }

  lemma {:induction false} WeightlessTotal(f: Network, temp: real, ms: seq<seq<Datum>>)
    requires forall k :: 0 <= k < |ms| ==> Weightless(ms[k])
    ensures Dot(f, temp, AllInputs(ms)) == 0.0
  {
    if ms != [] {
      var init, last := ms[..|ms| - 1], ms[|ms| - 1];
      assert forall k :: 0 <= k < |init| ==> init[k] == ms[k];
      WeightlessTotal(f, temp, init);
      WeightlessMicroDot(f, temp, last);
      MicroDotIsDot(f, temp, last);
      DotAppend(f, temp, AllInputs(init), MicroInputs(last));
    }
  }

  // Micro-batches without weight before the failing one always leave nothing; with
  // weights of one sign nothing else does.
  lemma FailureIsCleanExactlyWhenPrefixWeightless(good: seq<seq<Datum>>, worldSize: nat, temp: real)
    ensures (forall k :: 0 <= k < |good| ==> Weightless(good[k])) ==> LeavesNothing(good, worldSize, temp)
    ensures (forall k :: 0 <= k < |good| ==> NonNegative(good[k])) ==>
              (LeavesNothing(good, worldSize, temp) <==> forall k :: 0 <= k < |good| ==> Weightless(good[k]))
  {
    FailureIsCleanExactlyWhenWeightsCancel(good, worldSize, temp);
    if forall k :: 0 <= k < |good| ==> Weightless(good[k]) {
      forall at
        ensures Total(AllInputs(good), at) == 0.0
      {
        WeightlessTotal(Indicator(at), temp, good);
        IndicatorDot(temp, AllInputs(good), at);
      }
    }
    if (forall k :: 0 <= k < |good| ==> NonNegative(good[k])) && LeavesNothing(good, worldSize, temp) {
      CancellingDot(Constant(), 1.0, AllInputs(good));
      forall k | 0 <= k < |good|
        ensures Grounded(good[k])
      {
        NonNegativeGrounded(good[k]);
      }
      GroundedTotal(good);
    }
  }

  // Seeing a row only makes no difference unless weights differ in sign.
  lemma RowLocalityMattersOnlyForMixedSigns(good: seq<seq<Datum>>, worldSize: nat, temp: real)
    requires forall k :: 0 <= k < |good| ==> NonNegative(good[k])
    ensures LeavesNothingRowLocally(good, worldSize, temp) <==> LeavesNothing(good, worldSize, temp)
  {
    FailureIsCleanExactlyWhenPrefixWeightless(good, worldSize, temp);
    if LeavesNothingRowLocally(good, worldSize, temp) {
      var score: Score := (temp, row, i, lab) => 1.0;
      assert RowLocal(Constant(), score);
      NothingLeftOf(Constant(), score, good, worldSize, temp);
      ConstantDot(temp, AllInputs(good));
      forall k | 0 <= k < |good|
        ensures Grounded(good[k])
      {
        NonNegativeGrounded(good[k]);
      }
      GroundedTotal(good);
    }
  }

  lemma {:induction false} ConstantDot(temp: real, es: seq<Weighed>)
    ensures Dot(Constant(), temp, es) == Dot(Constant(), 1.0, es)
  {
    if es != [] {
      ConstantDot(temp, es[..|es| - 1]);
    }
  }

  // Rows of ordinary supervised data: explicit targets, no weights.
  ghost predicate PlainRows(data: seq<Datum>) {
    forall r :: 0 <= r < |data| ==> Targets(data[r]).Some? && Weights(data[r]).None?
  }

  // On ordinary supervised data a malformed row leaves nothing behind exactly
  // when the first micro-batch already contains one.
  lemma PlainFailureIsCleanExactlyInFirstMicroBatch(data: seq<Datum>, mb: nat, worldSize: nat, temp: real)
    requires mb > 0 && data != [] && PlainRows(data)
    ensures LeavesNothing(GoodPrefix(Micros(data, mb)), worldSize, temp) <==> !RowsOk(Micros(data, mb)[0])
  {
    var ms := Micros(data, mb);
    var good := GoodPrefix(ms);
    forall k | 0 <= k < |good|
      ensures NonNegative(good[k])
    {
      PlainMicro(data, mb, k);
    }
    FailureIsCleanExactlyWhenPrefixWeightless(good, worldSize, temp);
    if RowsOk(ms[0]) {
      assert good[0] == ms[0];
      PlainMicro(data, mb, 0);
      var d := ms[0][0];
      assert RowOk(d) && WeightAt(d, 0) == 1.0;
      assert !Weightless(good[0]);
    }
  }

  lemma PlainMicro(data: seq<Datum>, mb: nat, k: nat)
    requires mb > 0 && PlainRows(data) && k < |Micros(data, mb)|
    ensures PlainRows(Micros(data, mb)[k]) && NonNegative(Micros(data, mb)[k])
  {
    var ms := Micros(data, mb);
    MicrosCover(data, mb);
    forall r | 0 <= r < |ms[k]|
      ensures Targets(ms[k][r]).Some? && Weights(ms[k][r]).None?
    {
      FlattenIndex(ms, k, r);
    }
  }
}
