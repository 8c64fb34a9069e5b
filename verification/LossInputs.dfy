// Batching rules for client-supplied loss inputs (src/tuft/backends/loss_inputs.py).
//
// A tensor is a dtype tag, a shape and its elements by index; only indices
// inside the shape mean anything.  A datum's `loss_fn_inputs` dictionary keeps
// Python's insertion order beside the mapping.
module LossInputs {
  import opened Wrappers

  datatype Tensor = Tensor(dtype: int, shape: seq<nat>, at: seq<nat> -> real)

  datatype Fields = Fields(order: seq<string>, values: map<string, Tensor>) {
    ghost predicate Valid() {
      forall k :: k in order <==> k in values
    }
  }

  datatype Datum = Datum(tokens: seq<int>, fields: Fields)

  datatype FieldError = MissingField(key: string) | RankMismatch(rankKey: string) | DtypeMismatch(dtypeKey: string)

  // Fields whose value the model produces, or that FSDP synthesises per row.
  const MODEL_DERIVED: set<string> := {"target_logprobs"}
  const FSDP_OWNED: set<string> := {"target_tokens", "target_logprobs", "weights", "logprobs", "advantages"}

  ghost predicate AllValid(data: seq<Datum>) {
    forall d :: d in data ==> d.fields.Valid()
  }

  // ---------- Key discovery ----------

  ghost predicate NoDuplicates<T>(xs: seq<T>) {
    forall i, j :: 0 <= i < j < |xs| ==> xs[i] != xs[j]
  }

  // `k` is a field of some row.
  ghost predicate Mentioned(data: seq<Datum>, k: string) {
    exists r :: 0 <= r < |data| && k in data[r].fields.order
  }

  // The union of the rows' keys, each once, in the order they are first met.
  method ClientKeys(data: seq<Datum>) returns (keys: seq<string>)
    ensures NoDuplicates(keys)
    ensures forall k :: k in keys <==> Mentioned(data, k)
  {
    keys := [];
    for r := 0 to |data|
      invariant NoDuplicates(keys)
      invariant forall k :: k in keys <==> Mentioned(data[..r], k)
    {
      var before := keys;
      var order := data[r].fields.order;
      for c := 0 to |order|
        invariant NoDuplicates(keys)
        invariant forall k :: k in keys <==> k in before || k in order[..c]
      {
        assert order[..c + 1] == order[..c] + [order[c]];
        if order[c] !in keys {
          keys := keys + [order[c]];
        }
      }
      assert order[..|order|] == order;
      MentionedSnoc(data, r);
    }
    assert data[..|data|] == data;
  }

  lemma MentionedSnoc(data: seq<Datum>, r: nat)
    requires r < |data|
    ensures forall k :: Mentioned(data[..r + 1], k) <==> Mentioned(data[..r], k) || k in data[r].fields.order
  {
    var longer, shorter := data[..r + 1], data[..r];
    forall k
      ensures Mentioned(longer, k) <==> Mentioned(shorter, k) || k in data[r].fields.order
    {
      if Mentioned(shorter, k) {
        var i :| 0 <= i < |shorter| && k in shorter[i].fields.order;
        assert k in longer[i].fields.order;
      }
      if k in data[r].fields.order {
        assert k in longer[r].fields.order;
      }
      if Mentioned(longer, k) {
        var i :| 0 <= i < |longer| && k in longer[i].fields.order;
        assert i < r ==> k in shorter[i].fields.order;
      }
    }
  }

  // ---------- Validation ----------

  // What batching one field over `data` needs: present on every row, with one
  // rank and one dtype.
  predicate Uniform(data: seq<Datum>, key: string) {
    && (forall r :: 0 <= r < |data| ==> key in data[r].fields.values)
    && (forall r :: 0 <= r < |data| ==>
          |data[r].fields.values[key].shape| == |data[0].fields.values[key].shape|
          && data[r].fields.values[key].dtype == data[0].fields.values[key].dtype)
  }

  // Collects the field from every row, then compares ranks and dtypes with the first row's.
  method CheckField(data: seq<Datum>, key: string) returns (r: Result<seq<Tensor>, FieldError>)
    requires data != []
    ensures r.Ok? <==> Uniform(data, key)
    ensures r.Ok? ==> |r.value| == |data| && forall i :: 0 <= i < |data| ==> r.value[i] == data[i].fields.values[key]
    ensures r == Err(MissingField(key)) <==> exists i :: 0 <= i < |data| && key !in data[i].fields.values
  {
    var tensors := [];
    for i := 0 to |data|
      invariant |tensors| == i
      invariant forall j :: 0 <= j < i ==> key in data[j].fields.values && tensors[j] == data[j].fields.values[key]
    {
      if key !in data[i].fields.values {
        return Err(MissingField(key));
      }
      tensors := tensors + [data[i].fields.values[key]];
    }
    var ndim := |tensors[0].shape|;
    if exists i :: 0 <= i < |tensors| && |tensors[i].shape| != ndim {
      return Err(RankMismatch(key));
    }
    var dtype := tensors[0].dtype;
    if exists i :: 0 <= i < |tensors| && tensors[i].dtype != dtype {
      return Err(DtypeMismatch(key));
    }
    return Ok(tensors);
  }

  // Whole-request validation: an empty request is a no-op, every required key
  // must occur, and every key not ignored must be uniform over all rows.
  method ValidateClientInputs(data: seq<Datum>, ignored: set<string>, required: set<string>)
    returns (r: Result<seq<string>, FieldError>)
    requires AllValid(data)
    ensures data == [] ==> r == Ok([])
    ensures data != [] ==>
              (r.Ok? <==> (forall k :: k in required ==> Mentioned(data, k))
                          && (forall k :: Mentioned(data, k) && k !in ignored ==> Uniform(data, k)))
    ensures r.Ok? && data != [] ==>
              NoDuplicates(r.value) && (forall k :: k in r.value <==> Mentioned(data, k))
  {
    if data == [] {
      return Ok([]);
    }
    var keys := ClientKeys(data);
    var todo := required;
    while todo != {}
      invariant todo <= required
      invariant forall k :: k in required && k !in todo ==> Mentioned(data, k)
    {
      var key :| key in todo;
      if key !in keys {
        return Err(MissingField(key));
      }
      todo := todo - {key};
    }
    for i := 0 to |keys|
      invariant forall j :: 0 <= j < i && keys[j] !in ignored ==> Uniform(data, keys[j])
    {
      if keys[i] !in ignored {
        var checked := CheckField(data, keys[i]);
        if checked.Err? {
          assert Mentioned(data, keys[i]);
          return Err(checked.error);
        }
      }
    }
    return Ok(keys);
  }

  // ---------- Padding ----------

  ghost predicate InShape(idx: seq<nat>, shape: seq<nat>) {
    |idx| == |shape| && forall d :: 0 <= d < |shape| ==> idx[d] < shape[d]
  }

  // torch.nn.functional.pad with zeros: the list holds (before, after) pairs
  // starting from the LAST dimension.
  function PadBefore(pad: seq<nat>, ndim: nat, d: nat): nat
    requires |pad| == 2 * ndim && d < ndim
  {
    pad[2 * (ndim - 1 - d)]
  }

  function PadAfter(pad: seq<nat>, ndim: nat, d: nat): nat
    requires |pad| == 2 * ndim && d < ndim
  {
    pad[2 * (ndim - 1 - d) + 1]
  }

  function FPad(t: Tensor, pad: seq<nat>): Tensor
    requires |pad| == 2 * |t.shape|
  {
    var n := |t.shape|;
    Tensor(t.dtype,
           seq(n, d requires 0 <= d < n => PadBefore(pad, n, d) + t.shape[d] + PadAfter(pad, n, d)),
           idx =>
             if |idx| == n && forall d :: 0 <= d < n ==> PadBefore(pad, n, d) <= idx[d] < PadBefore(pad, n, d) + t.shape[d]
             then t.at(seq(n, d requires 0 <= d < n => if idx[d] >= PadBefore(pad, n, d) then idx[d] - PadBefore(pad, n, d) else 0))
             else 0.0)
  }

  // `padded` holds `t` in its low corner and zero everywhere else.
  ghost predicate ZeroPadded(padded: Tensor, t: Tensor, shape: seq<nat>) {
    && padded.dtype == t.dtype
    && padded.shape == shape
    && |shape| == |t.shape|
    && (forall d :: 0 <= d < |shape| ==> t.shape[d] <= shape[d])
    && (forall idx: seq<nat> | InShape(idx, shape) ::
          padded.at(idx) == if InShape(idx, t.shape) then t.at(idx) else 0.0)
  }

  predicate IsMaxShape(ts: seq<Tensor>, shape: seq<nat>) {
    && (forall i :: 0 <= i < |ts| ==> |ts[i].shape| == |shape|)
    && (forall i, d :: 0 <= i < |ts| && 0 <= d < |shape| ==> ts[i].shape[d] <= shape[d])
    && (forall d :: 0 <= d < |shape| ==> exists i :: 0 <= i < |ts| && ts[i].shape[d] == shape[d])
  }

  method MaxShape(ts: seq<Tensor>) returns (shape: seq<nat>)
    requires ts != []
    requires forall i :: 0 <= i < |ts| ==> |ts[i].shape| == |ts[0].shape|
    ensures IsMaxShape(ts, shape)
  {
    shape := [];
    for d := 0 to |ts[0].shape|
      invariant |shape| == d
      invariant forall i, e :: 0 <= i < |ts| && 0 <= e < d ==> ts[i].shape[e] <= shape[e]
      invariant forall e :: 0 <= e < d ==> exists i :: 0 <= i < |ts| && ts[i].shape[e] == shape[e]
    {
      var best := ts[0].shape[d];
      for i := 0 to |ts|
        invariant forall j :: 0 <= j < i ==> ts[j].shape[d] <= best
        invariant exists j :: 0 <= j < |ts| && ts[j].shape[d] == best
      {
        if ts[i].shape[d] > best {
          best := ts[i].shape[d];
        }
      }
      shape := shape + [best];
    }
  }

  // Builds the pad list back to front over the dimensions, as the source does.
  method PadOne(t: Tensor, shape: seq<nat>) returns (padded: Tensor)
    requires |shape| == |t.shape|
    requires forall d :: 0 <= d < |shape| ==> t.shape[d] <= shape[d]
    ensures ZeroPadded(padded, t, shape)
  {
    var n := |shape|;
    var pad: seq<nat> := [];
    for k := 0 to n
      invariant |pad| == 2 * k
      invariant forall j :: 0 <= j < k ==> pad[2 * j] == 0 && pad[2 * j + 1] == shape[n - 1 - j] - t.shape[n - 1 - j]
    {
      pad := pad + [0, shape[n - 1 - k] - t.shape[n - 1 - k]];
    }
    padded := FPad(t, pad);
    PadListZeroPads(t, shape, pad);
  }

  lemma PadListZeroPads(t: Tensor, shape: seq<nat>, pad: seq<nat>)
    requires |shape| == |t.shape| && |pad| == 2 * |shape|
    requires forall d :: 0 <= d < |shape| ==> t.shape[d] <= shape[d]
    requires forall j :: 0 <= j < |shape| ==>
                           pad[2 * j] == 0 && pad[2 * j + 1] == shape[|shape| - 1 - j] - t.shape[|shape| - 1 - j]
    ensures ZeroPadded(FPad(t, pad), t, shape)
  {
    var n := |shape|;
    forall d | 0 <= d < n
      ensures PadBefore(pad, n, d) == 0 && PadAfter(pad, n, d) == shape[d] - t.shape[d]
    {
      var j := n - 1 - d;
      assert pad[2 * j] == 0 && pad[2 * j + 1] == shape[n - 1 - j] - t.shape[n - 1 - j];
    }
    PaddedShape(t, shape, pad);
    forall idx: seq<nat> | InShape(idx, shape)
      ensures FPad(t, pad).at(idx) == if InShape(idx, t.shape) then t.at(idx) else 0.0
    {
      PaddedElement(t, pad, idx);
    }
  }

  lemma PaddedShape(t: Tensor, shape: seq<nat>, pad: seq<nat>)
    requires |shape| == |t.shape| && |pad| == 2 * |shape|
    requires forall d :: 0 <= d < |shape| ==> t.shape[d] <= shape[d]
    requires forall d :: 0 <= d < |shape| ==> PadBefore(pad, |shape|, d) == 0 && PadAfter(pad, |shape|, d) == shape[d] - t.shape[d]
    ensures FPad(t, pad).shape == shape
  {
  }

  // With nothing inserted before any dimension an element keeps its index.
  lemma PaddedElement(t: Tensor, pad: seq<nat>, idx: seq<nat>)
    requires |pad| == 2 * |t.shape| && |idx| == |t.shape|
    requires forall d :: 0 <= d < |t.shape| ==> PadBefore(pad, |t.shape|, d) == 0
    ensures FPad(t, pad).at(idx) == if InShape(idx, t.shape) then t.at(idx) else 0.0
  {
    var n := |t.shape|;
    assert seq(n, d requires 0 <= d < n => if idx[d] >= PadBefore(pad, n, d) then idx[d] - PadBefore(pad, n, d) else 0) == idx;
  }

  // Stacks one field over the rows, zero-padding every row to the largest
  // extent of each dimension (rank 0 needs no padding).
  method BatchLossFnInput(data: seq<Datum>, key: string) returns (r: Result<seq<Tensor>, FieldError>, ghost shape: seq<nat>)
    requires data != []
    ensures r.Ok? <==> Uniform(data, key)
    ensures r.Ok? ==> |r.value| == |data| && IsMaxShape(FieldColumn(data, key), shape)
    ensures r.Ok? ==> forall i :: 0 <= i < |data| ==> ZeroPadded(r.value[i], data[i].fields.values[key], shape)
  {
    var collected := CheckField(data, key);
    if collected.Err? {
      return Err(collected.error), [];
    }
    var tensors := collected.value;
    assert tensors == FieldColumn(data, key);
    var widest := MaxShape(tensors);
    shape := widest;
    var padded := PadAll(tensors, widest);
    r := Ok(padded);
  }

  method PadAll(tensors: seq<Tensor>, shape: seq<nat>) returns (padded: seq<Tensor>)
    requires IsMaxShape(tensors, shape)
    ensures |padded| == |tensors| && forall j :: 0 <= j < |tensors| ==> ZeroPadded(padded[j], tensors[j], shape)
  {
    padded := [];
    for i := 0 to |tensors|
      invariant |padded| == i
      invariant forall j :: 0 <= j < i ==> ZeroPadded(padded[j], tensors[j], shape)
    {
      var one := PadOne(tensors[i], shape);
      padded := padded + [one];
    }
  }

  ghost function FieldColumn(data: seq<Datum>, key: string): (ts: seq<Tensor>)
    requires Uniform(data, key)
  {
    seq(|data|, i requires 0 <= i < |data| => data[i].fields.values[key])
  }

  // ---------- What validating the whole request buys ----------

  // Trimming a padded row to its own shape gives the row back.
  ghost predicate SameTensor(a: Tensor, b: Tensor) {
    a.dtype == b.dtype && a.shape == b.shape && forall idx: seq<nat> | InShape(idx, a.shape) :: a.at(idx) == b.at(idx)
  }

  function Trim(t: Tensor, shape: seq<nat>): Tensor { t.(shape := shape) }

  lemma TrimUndoesPadding(padded: Tensor, t: Tensor, shape: seq<nat>)
    requires ZeroPadded(padded, t, shape)
    ensures SameTensor(Trim(padded, t.shape), t)
  {
    forall idx: seq<nat> | InShape(idx, t.shape)
      ensures padded.at(idx) == t.at(idx)
    {
      assert InShape(idx, shape);
    }
  }

  // A field uniform over the request is uniform over every slice of it, so
  // no micro-batch of a validated request can fail in BatchLossFnInput.
  lemma UniformOnSlices(data: seq<Datum>, key: string, lo: nat, hi: nat)
    requires lo <= hi <= |data|
    requires Uniform(data, key)
    ensures Uniform(data[lo..hi], key)
  {
    var slice := data[lo..hi];
    forall r | 0 <= r < |slice|
      ensures key in slice[r].fields.values
              && |slice[r].fields.values[key].shape| == |slice[0].fields.values[key].shape|
              && slice[r].fields.values[key].dtype == slice[0].fields.values[key].dtype
    {
      assert slice[r] == data[lo + r] && slice[0] == data[lo + 0];
    }
  }

  // A slice mentions no field the request does not, so the keys derived from
  // a shard are always among the keys derived from the whole request.
  lemma MentionedOnSlices(data: seq<Datum>, key: string, lo: nat, hi: nat)
    requires lo <= hi <= |data|
    requires Mentioned(data[lo..hi], key)
    ensures Mentioned(data, key)
  {
    var slice := data[lo..hi];
    var i :| 0 <= i < |slice| && key in slice[i].fields.order;
    assert key in data[lo + i].fields.order;
  }

  // For a non-empty request: the request validates exactly when every
  // non-empty contiguous slice of it can batch every one of its fields.
  lemma {:induction false} ValidExactlyWhenEverySliceBatches(data: seq<Datum>, ignored: set<string>)
    requires data != []
    ensures (forall k :: Mentioned(data, k) && k !in ignored ==> Uniform(data, k))
       <==> (forall k, lo: nat, hi: nat | lo < hi <= |data| ::
               Mentioned(data, k) && k !in ignored ==> Uniform(data[lo..hi], k))
  {
    if forall k :: Mentioned(data, k) && k !in ignored ==> Uniform(data, k) {
      forall k, lo: nat, hi: nat | lo < hi <= |data| && Mentioned(data, k) && k !in ignored
        ensures Uniform(data[lo..hi], k)
      {
        UniformOnSlices(data, k, lo, hi);
      }
    }
    if forall k, lo: nat, hi: nat | lo < hi <= |data| ::
        Mentioned(data, k) && k !in ignored ==> Uniform(data[lo..hi], k) {
      assert data[0..|data|] == data;
      forall k | Mentioned(data, k) && k !in ignored
        ensures Uniform(data, k)
      {
        var lo: nat, hi: nat := 0, |data|;
        assert Uniform(data[lo..hi], k);
      }
    }
  }
}
