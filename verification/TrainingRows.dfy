// What one row of a request contributes to a cross-entropy loss, and when that
// contribution does not depend on the batch the row happens to be padded in
// (src/tuft/backends/fsdp_engine.py, src/tuft/loss_fn/cross_entropy.py).
//
// The neural network is an uninterpreted function.  A gradient coordinate is
// just another such function: both enter the loss linearly through the weights.
module TrainingRows {
  import opened Wrappers
  import opened LossInputs
  import opened Sharding

  // Temperature, padded row, attention mask, position, label.
  type Network = (real, seq<int>, seq<bool>, nat, int) -> real
  // Temperature, unpadded row, position, label.
  type Score = (real, seq<int>, nat, int) -> real

  // ---------- The fields cross-entropy reads ----------

  function Product(shape: seq<nat>): nat {
    if shape == [] then 1 else shape[0] * Product(shape[1..])
  }

  // Row-major index of the k-th element.
  function Unravel(k: nat, shape: seq<nat>): seq<nat> {
    if shape == [] then []
    else if Product(shape[1..]) == 0 then [0] + Unravel(0, shape[1..])
    else [k / Product(shape[1..])] + Unravel(k % Product(shape[1..]), shape[1..])
  }

  // reshape(-1).
  function Flat(t: Tensor): seq<real> {
    seq(Product(t.shape), k requires 0 <= k => t.at(Unravel(k, t.shape)))
  }

  // An element's place in row-major order.
  function RowMajor(idx: seq<nat>, shape: seq<nat>): nat
    requires |idx| == |shape|
  {
    if shape == [] then 0 else idx[0] * Product(shape[1..]) + RowMajor(idx[1..], shape[1..])
  }

  lemma {:induction false} UnravelRowMajor(idx: seq<nat>, shape: seq<nat>)
    requires InShape(idx, shape)
    ensures RowMajor(idx, shape) < Product(shape) && Unravel(RowMajor(idx, shape), shape) == idx
  {
    if shape != [] {
      var p, rest := Product(shape[1..]), RowMajor(idx[1..], shape[1..]);
      assert forall d :: 0 <= d < |shape| - 1 ==> idx[1..][d] < shape[1..][d];
      UnravelRowMajor(idx[1..], shape[1..]);
      DivUnique(idx[0] * p + rest, p, idx[0], rest);
      BelowProduct(idx[0], shape[0], p, rest);
      assert [idx[0]] + idx[1..] == idx;
    }
  }

  lemma BelowProduct(i: nat, n: nat, p: nat, rest: nat)
    requires i < n && rest < p
    ensures i * p + rest < n * p
  {
    assert (i + 1) * p <= n * p;
    assert (i + 1) * p == i * p + p;
  }

  // Flattening keeps the elements in row-major order.
  lemma FlatIsRowMajor(t: Tensor, idx: seq<nat>)
    requires InShape(idx, t.shape)
    ensures |Flat(t)| == Product(t.shape) && RowMajor(idx, t.shape) < |Flat(t)|
    ensures Flat(t)[RowMajor(idx, t.shape)] == t.at(idx)
  {
    UnravelRowMajor(idx, t.shape);
  }

  lemma FlatVector(t: Tensor)
    requires |t.shape| == 1
    ensures |Flat(t)| == t.shape[0] && forall i :: 0 <= i < t.shape[0] ==> Flat(t)[i] == t.at([i])
  {
    assert Product(t.shape[1..]) == 1;
    forall i: nat ensures Unravel(i, t.shape) == [i] {
      assert t.shape[1..] == [] && i / 1 == i;
    }
  }

  // Conversion to torch.long truncates toward zero.
  function Truncate(x: real): int {
    if x >= 0.0 then x.Floor else -(-x).Floor
  }

  function Targets(d: Datum): Option<seq<int>> {
    if "target_tokens" in d.fields.values then
      var flat := Flat(d.fields.values["target_tokens"]);
      Some(seq(|flat|, i requires 0 <= i < |flat| => Truncate(flat[i])))
    else None
  }

  function Weights(d: Datum): Option<seq<real>> {
    if "weights" in d.fields.values then Some(Flat(d.fields.values["weights"])) else None
  }

  // ---------- Padding and masking ----------

  function PadRow<T>(row: seq<T>, width: nat, fill: T): seq<T>
    requires |row| <= width
  {
    row + seq(width - |row|, _ => fill)
  }

  function Mask(length: nat, width: nat): seq<bool> {
    seq(width, i => i < length)
  }

  // Rows are independent under masking: at a real position the network sees only the row itself.
  ghost predicate RowLocal(net: Network, score: Score) {
    forall temp: real, row: seq<int>, width: nat, i: nat, lab: int | i < |row| <= width ::
      net(temp, PadRow(row, width, 0), Mask(|row|, width), i, lab) == score(temp, row, i, lab)
  }

  // ---------- Labels and weights by position ----------

  // `fin` is the label that the flat roll leaves on a row's last token.
  function LabelAt(d: Datum, fin: int, i: nat): int {
    if i >= |d.tokens| then 0
    else match Targets(d)
         case Some(ts) => if i < |ts| then ts[i] else 0
         case None => if i + 1 < |d.tokens| then d.tokens[i + 1] else fin
  }

  // Explicit weights are copied as far as they go; omitted ones mean full
  // supervision, except that a rolled final label is worth nothing.
  function WeightAt(d: Datum, i: nat): real {
    match Weights(d)
    case Some(ws) => if i < |ws| then ws[i] else 0.0
    case None =>
      if i >= |d.tokens| || (Targets(d).None? && i == |d.tokens| - 1) then 0.0 else 1.0
  }

  // The rows the engine accepts.
  predicate RowOk(d: Datum) {
    d.tokens != [] && (Targets(d).Some? ==> |Targets(d).value| == |d.tokens|)
  }

  // ---------- One row's share of a padded batch ----------

  function RowDot(f: Network, temp: real, d: Datum, width: nat, fin: int, k: nat): real
    requires |d.tokens| <= width
  {
    if k == 0 then 0.0
    else RowDot(f, temp, d, width, fin, k - 1)
         + f(temp, PadRow(d.tokens, width, 0), Mask(|d.tokens|, width), k - 1, LabelAt(d, fin, k - 1)) * WeightAt(d, k - 1)
  }

  // The row on its own, with no padding and no neighbour.
  function RowTermUpTo(score: Score, temp: real, d: Datum, k: nat): real {
    if k == 0 then 0.0
    else RowTermUpTo(score, temp, d, k - 1) + score(temp, d.tokens, k - 1, LabelAt(d, 0, k - 1)) * WeightAt(d, k - 1)
  }

  function RowTerm(score: Score, temp: real, d: Datum): real {
    RowTermUpTo(score, temp, d, |d.tokens|)
  }

  // Guard a caller can check: a row without explicit targets carries no weight on
  // its last token, and no row carries weight past its end.
  ghost predicate Settled(d: Datum) {
    && (Targets(d).None? && d.tokens != [] ==> WeightAt(d, |d.tokens| - 1) == 0.0)
    && forall i: nat :: i >= |d.tokens| ==> WeightAt(d, i) == 0.0
  }

  // The documented shapes of request are settled.
  lemma DocumentedRowsAreSettled(d: Datum)
    requires Targets(d).Some? || Weights(d).None?
    requires Weights(d).Some? ==> |Weights(d).value| <= |d.tokens|
    ensures Settled(d)
  {
  }

  lemma {:induction false} SettledRowDotUpTo(net: Network, score: Score, temp: real, d: Datum, width: nat, fin: int, k: nat)
    requires RowLocal(net, score) && Settled(d)
    requires |d.tokens| <= width && k <= width
    ensures RowDot(net, temp, d, width, fin, k) == RowTermUpTo(score, temp, d, if k <= |d.tokens| then k else |d.tokens|)
  {
    if k > 0 {
      SettledRowDotUpTo(net, score, temp, d, width, fin, k - 1);
      var i := k - 1;
      if i < |d.tokens| {
        var x := net(temp, PadRow(d.tokens, width, 0), Mask(|d.tokens|, width), i, LabelAt(d, fin, i));
        assert x == score(temp, d.tokens, i, LabelAt(d, fin, i));
        if LabelAt(d, fin, i) != LabelAt(d, 0, i) {
          assert WeightAt(d, i) == 0.0;
        }
      } else {
        assert WeightAt(d, i) == 0.0;
      }
    }
  }

  // A settled row adds the same amount however far it is padded and whatever follows it.
  lemma SettledRowDot(net: Network, score: Score, temp: real, d: Datum, width: nat, fin: int)
    requires RowLocal(net, score) && Settled(d) && |d.tokens| <= width
    ensures RowDot(net, temp, d, width, fin, width) == RowTerm(score, temp, d)
  {
    SettledRowDotUpTo(net, score, temp, d, width, fin, width);
  }

  // ---------- Settled is exactly what is needed ----------

  ghost predicate ContextFree(d: Datum) {
    forall net: Network, score: Score, temp: real, w1: nat, fin1: int, w2: nat, fin2: int
      | RowLocal(net, score) && |d.tokens| <= w1 && |d.tokens| <= w2 ::
      RowDot(net, temp, d, w1, fin1, w1) == RowDot(net, temp, d, w2, fin2, w2)
  }

  // A row-local network that looks at one position only and returns the label it is asked about.
  function Probe(p: nat, shift: real): Network {
    (temp, row, mask, i, lab) => if i == p then lab as real + shift else 0.0
  }

  function ProbeScore(p: nat, shift: real): Score {
    (temp, row, i, lab) => if i == p then lab as real + shift else 0.0
  }

  lemma {:induction false} ProbeRowDot(p: nat, shift: real, d: Datum, width: nat, fin: int, k: nat)
    requires |d.tokens| <= width
    ensures RowDot(Probe(p, shift), 1.0, d, width, fin, k)
         == if p < k then (LabelAt(d, fin, p) as real + shift) * WeightAt(d, p) else 0.0
  {
    if k > 0 {
      ProbeRowDot(p, shift, d, width, fin, k - 1);
    }
  }

  // A row contributes the same amount in every batch it can be placed in exactly when it is settled.
  lemma {:induction false} ContextFreeExactlyWhenSettled(d: Datum)
    requires RowOk(d)
    ensures ContextFree(d) <==> Settled(d)
  {
    if Settled(d) {
      forall net: Network, score: Score, temp: real, w1: nat, fin1: int, w2: nat, fin2: int
        | RowLocal(net, score) && |d.tokens| <= w1 && |d.tokens| <= w2
        ensures RowDot(net, temp, d, w1, fin1, w1) == RowDot(net, temp, d, w2, fin2, w2)
      {
        SettledRowDot(net, score, temp, d, w1, fin1);
        SettledRowDot(net, score, temp, d, w2, fin2);
      }
    } else if Targets(d).None? && WeightAt(d, |d.tokens| - 1) != 0.0 {
      var p, n := |d.tokens| - 1, |d.tokens|;
      assert RowLocal(Probe(p, 0.0), ProbeScore(p, 0.0));
      ProbeRowDot(p, 0.0, d, n, 0, n);
      ProbeRowDot(p, 0.0, d, n, 1, n);
      assert RowDot(Probe(p, 0.0), 1.0, d, n, 0, n) != RowDot(Probe(p, 0.0), 1.0, d, n, 1, n);
    } else {
      var p: nat :| p >= |d.tokens| && WeightAt(d, p) != 0.0;
      var n := |d.tokens|;
      assert RowLocal(Probe(p, 1.0), ProbeScore(p, 1.0));
      ProbeRowDot(p, 1.0, d, n, 0, n);
      ProbeRowDot(p, 1.0, d, p + 1, 0, p + 1);
      assert RowDot(Probe(p, 1.0), 1.0, d, n, 0, n) != RowDot(Probe(p, 1.0), 1.0, d, p + 1, 0, p + 1);
    }
  }

  // ---------- A whole padded micro-batch ----------

  function MaxLen(data: seq<Datum>): (m: nat)
    ensures forall r :: 0 <= r < |data| ==> |data[r].tokens| <= m
    ensures data != [] ==> exists r :: 0 <= r < |data| && |data[r].tokens| == m
  {
    if data == [] then 0
    else
      var m := MaxLen(data[..|data| - 1]);
      if |data[|data| - 1].tokens| > m || |data| == 1 then |data[|data| - 1].tokens| else m
  }

  // First token of the row that follows row r, the first row following the last.
  function NextFirst(data: seq<Datum>, r: nat): int
    requires r < |data|
  {
    var next := if r + 1 < |data| then r + 1 else 0;
    if data[next].tokens == [] then 0 else data[next].tokens[0]
  }

  function SumReals(xs: seq<real>): real {
    if xs == [] then 0.0 else SumReals(xs[..|xs| - 1]) + xs[|xs| - 1]
  }

  function RowDots(f: Network, temp: real, data: seq<Datum>): seq<real> {
    seq(|data|, r requires 0 <= r < |data| => RowDot(f, temp, data[r], MaxLen(data), NextFirst(data, r), MaxLen(data)))
  }

  function MicroDot(f: Network, temp: real, data: seq<Datum>): real {
    SumReals(RowDots(f, temp, data))
  }

  function RowOutput(f: Network, temp: real, d: Datum, width: nat, fin: int): seq<real>
    requires |d.tokens| <= width
  {
    seq(|d.tokens|, i requires 0 <= i =>
      f(temp, PadRow(d.tokens, width, 0), Mask(|d.tokens|, width), i, LabelAt(d, fin, i)))
  }

  function MicroOutputs(f: Network, temp: real, data: seq<Datum>): seq<seq<real>> {
    seq(|data|, r requires 0 <= r < |data| => RowOutput(f, temp, data[r], MaxLen(data), NextFirst(data, r)))
  }

  // ---------- The simple full-batch form ----------

  // One number per row, summed.
  function BatchTerm(term: Datum -> real, data: seq<Datum>): real {
    if data == [] then 0.0
    else BatchTerm(term, data[..|data| - 1]) + term(data[|data| - 1])
  }

  ghost predicate IsRowTerm(term: Datum -> real, score: Score, temp: real) {
    forall d {:trigger RowTerm(score, temp, d)} :: term(d) == RowTerm(score, temp, d)
  }

  ghost predicate AllSettled(data: seq<Datum>) {
    forall r :: 0 <= r < |data| ==> Settled(data[r])
  }

  lemma {:induction false} BatchTermAppend(term: Datum -> real, a: seq<Datum>, b: seq<Datum>)
    ensures BatchTerm(term, a + b) == BatchTerm(term, a) + BatchTerm(term, b)
  {
    if b == [] {
      assert a + b == a;
    } else {
      BatchTermAppend(term, a, b[..|b| - 1]);
      assert (a + b)[..|a + b| - 1] == a + b[..|b| - 1];
    }
  }

  lemma {:induction false} SumIsBatchTerm(term: Datum -> real, data: seq<Datum>, xs: seq<real>)
    requires |xs| == |data| && forall r :: 0 <= r < |data| ==> xs[r] == term(data[r])
    ensures SumReals(xs) == BatchTerm(term, data)
  {
    if data != [] {
      SumIsBatchTerm(term, data[..|data| - 1], xs[..|xs| - 1]);
    }
  }

  // Padding, masking and rolled labels leave no trace in the sum.
  lemma MicroDotIsBatchTerm(net: Network, score: Score, temp: real, term: Datum -> real, data: seq<Datum>)
    requires RowLocal(net, score) && IsRowTerm(term, score, temp) && AllSettled(data)
    ensures MicroDot(net, temp, data) == BatchTerm(term, data)
  {
    var xs := RowDots(net, temp, data);
    forall r | 0 <= r < |data|
      ensures xs[r] == term(data[r])
    {
      SettledRowDot(net, score, temp, data[r], MaxLen(data), NextFirst(data, r));
    }
    SumIsBatchTerm(term, data, xs);
  }

  // The log-probabilities returned for a row with explicit targets are its own.
  function OwnOutput(score: Score, temp: real, d: Datum): seq<real> {
    seq(|d.tokens|, i requires 0 <= i => score(temp, d.tokens, i, LabelAt(d, 0, i)))
  }

  lemma RowOutputIsOwn(net: Network, score: Score, temp: real, d: Datum, width: nat, fin: int)
    requires RowLocal(net, score) && Targets(d).Some? && |d.tokens| <= width
    ensures RowOutput(net, temp, d, width, fin) == OwnOutput(score, temp, d)
  {
    forall i | 0 <= i < |d.tokens|
      ensures RowOutput(net, temp, d, width, fin)[i] == OwnOutput(score, temp, d)[i]
    {
      assert LabelAt(d, fin, i) == LabelAt(d, 0, i);
    }
  }

  ghost predicate OutputContextFree(d: Datum) {
    forall net: Network, score: Score, temp: real, w1: nat, fin1: int, w2: nat, fin2: int
      | RowLocal(net, score) && |d.tokens| <= w1 && |d.tokens| <= w2 ::
      RowOutput(net, temp, d, w1, fin1) == RowOutput(net, temp, d, w2, fin2)
  }

  // Returned log-probabilities never depend on the batch exactly when the row brings its targets:
  // without them the last entry scores the next row's first token.
  lemma OutputContextFreeExactlyWithTargets(d: Datum)
    requires RowOk(d)
    ensures OutputContextFree(d) <==> Targets(d).Some?
  {
    if Targets(d).Some? {
      forall net: Network, score: Score, temp: real, w1: nat, fin1: int, w2: nat, fin2: int
        | RowLocal(net, score) && |d.tokens| <= w1 && |d.tokens| <= w2
        ensures RowOutput(net, temp, d, w1, fin1) == RowOutput(net, temp, d, w2, fin2)
      {
        RowOutputIsOwn(net, score, temp, d, w1, fin1);
        RowOutputIsOwn(net, score, temp, d, w2, fin2);
      }
    } else {
      var n := |d.tokens|;
      assert RowLocal(Probe(n - 1, 0.0), ProbeScore(n - 1, 0.0));
      assert RowOutput(Probe(n - 1, 0.0), 1.0, d, n, 0)[n - 1] != RowOutput(Probe(n - 1, 0.0), 1.0, d, n, 1)[n - 1];
    }
  }
}
