// Forward/backward results on the wire: ragged tensors grouped into records of one
// layout, with byte offsets (src/tuft/compat.py).  The decoding side is the layout's
// documented inverse: join the records in order, slice by offsets, reshape.
module WireCodec {
  import opened Wrappers
  import opened Sharding

  // ---------- Bytes ----------

  datatype DType = Float32 | Int64

  function Width(t: DType): nat {
    if t.Float32? then 4 else 8
  }

  function Pow256(w: nat): (p: nat)
    ensures p > 0
  {
    if w == 0 then 1 else 256 * Pow256(w - 1)
  }

  // An element is its bit pattern, stored in little-endian order.
  function Pack(x: nat, w: nat): seq<nat> {
    if w == 0 then [] else [x % 256] + Pack(x / 256, w - 1)
  }

  function Unpack(bs: seq<nat>): nat {
    if bs == [] then 0 else bs[0] + 256 * Unpack(bs[1..])
  }

  lemma {:induction false} PackUnpack(x: nat, w: nat)
    requires x < Pow256(w)
    ensures |Pack(x, w)| == w && Unpack(Pack(x, w)) == x
  {
    if w > 0 {
      PackUnpack(x / 256, w - 1);
      assert Pack(x, w)[1..] == Pack(x / 256, w - 1);
    }
  }

  function ToBytes(elems: seq<nat>, w: nat): seq<nat> {
    if elems == [] then [] else Pack(elems[0], w) + ToBytes(elems[1..], w)
  }

  function FromBytes(bs: seq<nat>, w: nat): seq<nat>
    requires w > 0
  {
    if |bs| < w then [] else [Unpack(bs[..w])] + FromBytes(bs[w..], w)
  }

  ghost predicate Fits(elems: seq<nat>, w: nat) {
    forall i :: 0 <= i < |elems| ==> elems[i] < Pow256(w)
  }

  lemma {:induction false} BytesRoundTrip(elems: seq<nat>, w: nat)
    requires w > 0 && Fits(elems, w)
    ensures FromBytes(ToBytes(elems, w), w) == elems
  {
    if elems != [] {
      var first, rest := Pack(elems[0], w), ToBytes(elems[1..], w);
      PackUnpack(elems[0], w);
      BytesRoundTrip(elems[1..], w);
      assert ToBytes(elems, w) == first + rest;
      assert (first + rest)[..w] == first && (first + rest)[w..] == rest;
      assert [elems[0]] + elems[1..] == elems;
    }
  }

  // ---------- Tensors ----------

  function Prod(shape: seq<nat>): nat {
    if shape == [] then 1 else shape[0] * Prod(shape[1..])
  }

  // A contiguous array of at least one dimension.
  datatype Array = Array(dtype: DType, shape: seq<nat>, elems: seq<nat>)

  ghost predicate IsArray(a: Array) {
    a.shape != [] && |a.elems| == Prod(a.shape) && Fits(a.elems, Width(a.dtype))
  }

  // What a loss function returned.
  datatype TensorData = TensorData(dtype: Option<DType>, sparse: bool, shape: Option<seq<int>>, elems: seq<nat>)

  datatype EncodeError = UnsupportedDType | SparseOutput | BadShape | FieldsDiffer

  predicate NonNegative(shape: seq<int>) {
    forall i :: 0 <= i < |shape| ==> shape[i] >= 0
  }

  function AsShape(shape: seq<int>): seq<nat>
    requires NonNegative(shape)
  {
    seq(|shape|, i requires 0 <= i < |shape| => shape[i])
  }

  // The shape a tensor declares; none or an empty one means a vector.
  function DeclaredShape(t: TensorData): seq<int> {
    if t.shape.Some? && t.shape.value != [] then t.shape.value else [|t.elems|]
  }

  predicate Encodable(t: TensorData) {
    && t.dtype.Some? && !t.sparse && NonNegative(DeclaredShape(t)) && Prod(AsShape(DeclaredShape(t))) == |t.elems|
  }

  function ArrayOf(t: TensorData): Array
    requires Encodable(t)
  {
    Array(t.dtype.value, AsShape(DeclaredShape(t)), t.elems)
  }

  method TensorToArray(t: TensorData) returns (r: Result<Array, EncodeError>)
    ensures r.Ok? <==> Encodable(t)
    ensures r.Ok? ==> r.value == ArrayOf(t)
    ensures r == Err(UnsupportedDType) <==> t.dtype.None?
    ensures r == Err(SparseOutput) <==> t.dtype.Some? && t.sparse
    ensures r.Err? ==> r.error != FieldsDiffer
    ensures r.Ok? && Fits(t.elems, Width(t.dtype.value)) ==> IsArray(r.value)
  {
    if t.dtype.None? {
      return Err(UnsupportedDType);
    }
    if t.sparse {
      return Err(SparseOutput);
    }
    var shape := DeclaredShape(t);
    if exists i :: 0 <= i < |shape| && shape[i] < 0 {
      return Err(BadShape);
    }
    if Prod(AsShape(shape)) != |t.elems| {
      return Err(BadShape);
    }
    r := Ok(Array(t.dtype.value, AsShape(shape), t.elems));
  }

  // ---------- One field of one record ----------

  datatype Batched = Batched(data: seq<nat>, offsets: seq<nat>, dtype: DType, trailing: seq<nat>)

  function BytesOf(a: Array): seq<nat> {
    ToBytes(a.elems, Width(a.dtype))
  }

  function AllBytes(arrays: seq<Array>): seq<nat> {
    if arrays == [] then [] else AllBytes(arrays[..|arrays| - 1]) + BytesOf(arrays[|arrays| - 1])
  }

  // np.cumsum([0, nbytes...])
  function Offsets(arrays: seq<Array>): seq<nat> {
    seq(|arrays| + 1, i requires 0 <= i <= |arrays| => |AllBytes(arrays[..i])|)
  }

  lemma {:induction false} SliceIsDatum(arrays: seq<Array>, i: nat)
    requires i < |arrays|
    ensures |AllBytes(arrays[..i])| <= |AllBytes(arrays[..i + 1])| <= |AllBytes(arrays)|
    ensures AllBytes(arrays)[|AllBytes(arrays[..i])|..|AllBytes(arrays[..i + 1])|] == BytesOf(arrays[i])
  {
    var n := |arrays| - 1;
    assert arrays[..i + 1][..i] == arrays[..i];
    if i < n {
      var most := arrays[..n];
      assert most[..i] == arrays[..i] && most[..i + 1] == arrays[..i + 1] && most[i] == arrays[i];
      SliceIsDatum(most, i);
      SliceOfPrefix(AllBytes(most), BytesOf(arrays[n]), |AllBytes(arrays[..i])|, |AllBytes(arrays[..i + 1])|);
    } else {
      assert arrays[..i + 1] == arrays;
    }
  }

  lemma SliceOfPrefix(p: seq<nat>, q: seq<nat>, lo: nat, hi: nat)
    requires lo <= hi <= |p|
    ensures (p + q)[lo..hi] == p[lo..hi]
  {
  }

  method BuildBatch(arrays: seq<Array>) returns (b: Batched)
    requires arrays != [] && arrays[0].shape != []
    ensures b == Batched(AllBytes(arrays), Offsets(arrays), arrays[0].dtype, arrays[0].shape[1..])
  {
    var data, offsets := [], [0];
    for i := 0 to |arrays|
      invariant data == AllBytes(arrays[..i])
      invariant |offsets| == i + 1 && forall j :: 0 <= j <= i ==> offsets[j] == |AllBytes(arrays[..j])|
    {
      assert arrays[..i + 1][..i] == arrays[..i];
      data := data + BytesOf(arrays[i]);
      offsets := offsets + [offsets[i] + |BytesOf(arrays[i])|];
    }
    assert arrays[..|arrays|] == arrays;
    b := Batched(data, offsets, arrays[0].dtype, arrays[0].shape[1..]);
  }

  predicate SliceOk(b: Batched, i: nat) {
    i + 1 < |b.offsets| && b.offsets[i] <= b.offsets[i + 1] <= |b.data|
  }

  // Slicing by offsets, then reshaping by the trailing shape.
  function DecodeOne(b: Batched, i: nat): Array
    requires SliceOk(b, i)
  {
    var elems := FromBytes(b.data[b.offsets[i]..b.offsets[i + 1]], Width(b.dtype));
    var per := Prod(b.trailing);
    Array(b.dtype, [if per == 0 then 0 else |elems| / per] + b.trailing, elems)
  }

  function BatchOf(arrays: seq<Array>): Batched
    requires arrays != [] && arrays[0].shape != []
  {
    Batched(AllBytes(arrays), Offsets(arrays), arrays[0].dtype, arrays[0].shape[1..])
  }

  ghost predicate SameLayout(a: Array, b: Array) {
    a.shape != [] && b.shape != [] && a.dtype == b.dtype && a.shape[1..] == b.shape[1..]
  }

  // Offsets rise from 0 to the length of the data, and each datum comes back unless its
  // trailing dimensions multiply to zero while its leading one does not.
  lemma FieldRoundTripExactly(arrays: seq<Array>, i: nat)
    requires i < |arrays| && IsArray(arrays[0]) && IsArray(arrays[i]) && SameLayout(arrays[0], arrays[i])
    ensures var b := BatchOf(arrays);
            && b.offsets[0] == 0 && b.offsets[|arrays|] == |b.data| && SliceOk(b, i)
            && (DecodeOne(b, i) == arrays[i] <==> Prod(b.trailing) != 0 || arrays[i].shape[0] == 0)
  {
    var b, a := BatchOf(arrays), arrays[i];
    assert arrays[..0] == [] && arrays[..|arrays|] == arrays;
    SliceIsDatum(arrays, i);
    BytesRoundTrip(a.elems, Width(a.dtype));
    assert a.shape == [a.shape[0]] + a.shape[1..];
    var per := Prod(b.trailing);
    assert |a.elems| == a.shape[0] * per;
    if per != 0 {
      DivUnique(|a.elems|, per, a.shape[0], 0);
    }
  }

  // Arrays that differ only in a leading dimension over empty trailing ones look alike on the wire.
  lemma LeadingLostExactlyWhenTrailingEmpty(a: Array)
    requires IsArray(a)
    ensures (exists b: Array :: IsArray(b) && SameLayout(a, b) && b != a && BatchOf([b]) == BatchOf([a])) <==> Prod(a.shape[1..]) == 0
  {
    assert a.shape == [a.shape[0]] + a.shape[1..];
    if Prod(a.shape[1..]) == 0 {
      var b := Array(a.dtype, [a.shape[0] + 1] + a.shape[1..], a.elems);
      assert b.shape[1..] == a.shape[1..];
      assert AllBytes([a]) == AllBytes([b]) && Offsets([a]) == Offsets([b]) by {
        OneDatum(a);
        OneDatum(b);
      }
      assert IsArray(b) && SameLayout(a, b) && b != a;
    } else {
      forall b: Array | IsArray(b) && SameLayout(a, b) && BatchOf([b]) == BatchOf([a])
        ensures b == a
      {
        FieldRoundTripExactly([a], 0);
        FieldRoundTripExactly([b], 0);
      }
    }
  }

  lemma OneDatum(a: Array)
    ensures AllBytes([a]) == BytesOf(a) && Offsets([a]) == [0, |BytesOf(a)|]
  {
    assert [a][..0] == [] && [a][..1] == [a];
    assert AllBytes([a]) == AllBytes([]) + BytesOf(a);
  }

  // ---------- Records ----------

  type Datum = map<string, Array>

  datatype Record = Record(typeTag: string, numDatums: nat, fields: map<string, Batched>)

  function Column(group: seq<Datum>, name: string): seq<Array>
    requires forall i :: 0 <= i < |group| ==> name in group[i]
  {
    seq(|group|, i requires 0 <= i < |group| => group[i][name])
  }

  ghost predicate HasFields(d: Datum, fields: set<string>) {
    d.Keys == fields && forall name :: name in fields ==> IsArray(d[name])
  }

  ghost predicate AllHaveFields(ds: seq<Datum>, fields: set<string>) {
    forall i :: 0 <= i < |ds| ==> HasFields(ds[i], fields)
  }

  predicate LikeLayout(a: Datum, b: Datum, fields: set<string>)
    requires fields <= a.Keys && fields <= b.Keys
    requires forall name :: name in fields ==> a[name].shape != [] && b[name].shape != []
  {
    forall name :: name in fields ==> a[name].dtype == b[name].dtype && a[name].shape[1..] == b[name].shape[1..]
  }

  ghost predicate Alike(a: Datum, b: Datum, fields: set<string>) {
    HasFields(a, fields) && HasFields(b, fields) && LikeLayout(a, b, fields)
  }

  // A record is the batch of each of its fields.
  ghost predicate IsRecord(r: Record, tag: string, fields: set<string>, group: seq<Datum>) {
    && group != [] && AllHaveFields(group, fields)
    && r.typeTag == tag && r.numDatums == |group| && r.fields.Keys == fields
    && forall name :: name in fields ==> r.fields[name] == BatchOf(Column(group, name))
  }

  method AddArrayRecord(tag: string, fields: set<string>, group: seq<Datum>) returns (r: Record)
    requires group != [] && AllHaveFields(group, fields)
    ensures IsRecord(r, tag, fields, group)
  {
    var batches: map<string, Batched> := map[];
    var left := fields;
    while left != {}
      invariant left <= fields && batches.Keys == fields - left
      invariant forall name :: name in batches ==> batches[name] == BatchOf(Column(group, name))
      decreases |left|
    {
      var name :| name in left;
      left := left - {name};
      assert HasFields(group[0], fields);
      var b := BuildBatch(Column(group, name));
      batches := batches[name := b];
    }
    r := Record(tag, |group|, batches);
  }

  // Maximal runs of one layout, in order.
  ghost predicate Runs(groups: seq<seq<Datum>>, ds: seq<Datum>, fields: set<string>) {
    && Flatten(groups) == ds
    && (forall g :: 0 <= g < |groups| ==> Uniform(groups[g], fields))
    && (forall g :: 0 < g < |groups| ==> !Alike(groups[g - 1][0], groups[g][0], fields))
  }

  ghost predicate Uniform(group: seq<Datum>, fields: set<string>) {
    group != [] && forall i :: 0 <= i < |group| ==> Alike(group[0], group[i], fields)
  }

  ghost predicate Encodes(records: seq<Record>, tag: string, fields: set<string>, groups: seq<seq<Datum>>) {
    |records| == |groups| && forall g :: 0 <= g < |groups| ==> IsRecord(records[g], tag, fields, groups[g])
  }

  // Runs closed so far cover ds[..start]; the run being read is ds[start..index].
  ghost predicate Open(groups: seq<seq<Datum>>, ds: seq<Datum>, fields: set<string>, start: int, index: int) {
    && 0 <= start < index <= |ds|
    && Runs(groups, ds[..start], fields) && Uniform(ds[start..index], fields)
    && (groups != [] ==> groups[|groups| - 1] != [] && !Alike(groups[|groups| - 1][0], ds[start], fields))
  }

  lemma RunGrows(groups: seq<seq<Datum>>, ds: seq<Datum>, fields: set<string>, start: int, index: int)
    requires Open(groups, ds, fields, start, index) && index < |ds| && Alike(ds[start], ds[index], fields)
    ensures Open(groups, ds, fields, start, index + 1)
  {
    var run, longer := ds[start..index], ds[start..index + 1];
    assert longer[0] == run[0] == ds[start];
    forall i | 0 <= i < |longer|
      ensures Alike(longer[0], longer[i], fields)
    {
      if i < |run| {
        assert longer[i] == run[i];
      }
    }
  }

  lemma RunCloses(groups: seq<seq<Datum>>, ds: seq<Datum>, fields: set<string>, start: int, index: int)
    requires Open(groups, ds, fields, start, index) && AllHaveFields(ds, fields)
    requires index < |ds| ==> !Alike(ds[start], ds[index], fields)
    ensures Runs(groups + [ds[start..index]], ds[..index], fields)
    ensures index < |ds| ==> Open(groups + [ds[start..index]], ds, fields, index, index + 1)
  {
    FlattenSlice(groups, ds, start, index);
    RunsSnoc(groups, ds[..start], ds[..index], ds[start..index], fields);
    if index < |ds| {
      OneIsUniform(ds, fields, index);
    }
  }

  lemma RunsSnoc(groups: seq<seq<Datum>>, before: seq<Datum>, after: seq<Datum>, run: seq<Datum>, fields: set<string>)
    requires Runs(groups, before, fields) && Uniform(run, fields) && Flatten(groups + [run]) == after
    requires groups != [] ==> groups[|groups| - 1] != [] && !Alike(groups[|groups| - 1][0], run[0], fields)
    ensures Runs(groups + [run], after, fields)
  {
    var more := groups + [run];
    forall g | 0 <= g < |more|
      ensures Uniform(more[g], fields)
    {
      if g < |groups| {
        assert more[g] == groups[g];
      }
    }
    forall g | 0 < g < |more|
      ensures !Alike(more[g - 1][0], more[g][0], fields)
    {
      if g < |groups| {
        assert more[g - 1] == groups[g - 1] && more[g] == groups[g];
      }
    }
  }

  lemma OneIsUniform(ds: seq<Datum>, fields: set<string>, index: nat)
    requires index < |ds| && AllHaveFields(ds, fields)
    ensures Uniform(ds[index..index + 1], fields)
  {
    assert ds[index..index + 1] == [ds[index]] && HasFields(ds[index], fields);
  }

  // The grouping loop: close the run at `index` unless the datum there looks like its start.
  method EncodeRecords(tag: string, fields: set<string>, ds: seq<Datum>) returns (records: seq<Record>, ghost groups: seq<seq<Datum>>)
    requires ds != [] && AllHaveFields(ds, fields)
    ensures Encodes(records, tag, fields, groups) && Runs(groups, ds, fields)
    ensures forall g :: 0 <= g < |records| ==> Decodable(records[g])
    ensures DecodeAll(records) == ds <==> AllDetermined(ds, fields)
  {
    records, groups := [], [];
    var start := 0;
    FirstRun(ds, fields);
    for index := 1 to |ds| + 1
      invariant Encodes(records, tag, fields, groups)
      invariant if index <= |ds| then Open(groups, ds, fields, start, index) else Runs(groups, ds, fields)
    {
      if index < |ds| && SameAsStart(ds, fields, index, start) {
        RunGrows(groups, ds, fields, start, index);
        continue;
      }
      records := CloseRun(tag, fields, ds, start, index, records, groups);
      groups := groups + [ds[start..index]];
      start := index;
    }
    RoundTripExactlyWhenDetermined(records, tag, fields, groups, ds);
  }

  method CloseRun(tag: string, fields: set<string>, ds: seq<Datum>, start: nat, index: nat, records: seq<Record>, ghost groups: seq<seq<Datum>>)
    returns (records': seq<Record>)
    requires AllHaveFields(ds, fields) && Open(groups, ds, fields, start, index) && Encodes(records, tag, fields, groups)
    requires index < |ds| ==> !Alike(ds[start], ds[index], fields)
    ensures Encodes(records', tag, fields, groups + [ds[start..index]])
    ensures if index < |ds| then Open(groups + [ds[start..index]], ds, fields, index, index + 1)
            else Runs(groups + [ds[start..index]], ds, fields)
  {
    RunCloses(groups, ds, fields, start, index);
    assert ds[..|ds|] == ds;
    var r := AddArrayRecord(tag, fields, ds[start..index]);
    records' := records + [r];
  }

  predicate SameAsStart(ds: seq<Datum>, fields: set<string>, index: nat, start: nat)
    requires AllHaveFields(ds, fields) && start < |ds| && index < |ds|
    ensures SameAsStart(ds, fields, index, start) <==> Alike(ds[start], ds[index], fields)
  {
    assert HasFields(ds[start], fields) && HasFields(ds[index], fields);
    LikeLayout(ds[index], ds[start], fields)
  }

  lemma FirstRun(ds: seq<Datum>, fields: set<string>)
    requires ds != [] && AllHaveFields(ds, fields)
    ensures Open([], ds, fields, 0, 1)
  {
    assert ds[0..1] == [ds[0]] && HasFields(ds[0], fields);
  }

  // ---------- The whole response ----------

  type Output = map<string, TensorData>

  // Elements are bit patterns of the tensor's own dtype.
  ghost predicate Typed(outputs: seq<Output>) {
    forall i, name :: 0 <= i < |outputs| && name in outputs[i] && outputs[i][name].dtype.Some? ==>
                        Fits(outputs[i][name].elems, Width(outputs[i][name].dtype.value))
  }

  predicate AllEncodable(outputs: seq<Output>) {
    forall i :: 0 <= i < |outputs| ==> forall name :: name in outputs[i] ==> Encodable(outputs[i][name])
  }

  predicate SameFields(outputs: seq<Output>) {
    forall i :: 0 <= i < |outputs| ==> outputs[i].Keys == outputs[0].Keys
  }

  function ArraysOf(o: Output): Datum
    requires forall name :: name in o ==> Encodable(o[name])
  {
    map name | name in o :: ArrayOf(o[name])
  }

  method EncodeDatum(o: Output) returns (r: Result<Datum, EncodeError>)
    ensures r.Ok? <==> forall name :: name in o ==> Encodable(o[name])
    ensures r.Ok? ==> r.value == ArraysOf(o)
    ensures r.Err? ==> r.error != FieldsDiffer
  {
    var d: Datum := map[];
    var left := o.Keys;
    while left != {}
      invariant left <= o.Keys && d.Keys == o.Keys - left
      invariant forall name :: name in d ==> Encodable(o[name]) && d[name] == ArrayOf(o[name])
      decreases |left|
    {
      var name :| name in left;
      left := left - {name};
      var a := TensorToArray(o[name]);
      if a.Err? {
        return Err(a.error);
      }
      d := d[name := a.value];
    }
    r := Ok(d);
  }

  method EncodeDatums(outputs: seq<Output>) returns (r: Result<seq<Datum>, EncodeError>)
    ensures r.Ok? <==> AllEncodable(outputs)
    ensures r.Ok? ==> |r.value| == |outputs| && forall i :: 0 <= i < |outputs| ==> r.value[i] == ArraysOf(outputs[i])
    ensures r.Err? ==> r.error != FieldsDiffer
  {
    var ds: seq<Datum> := [];
    for i := 0 to |outputs|
      invariant |ds| == i && AllEncodable(outputs[..i])
      invariant forall j :: 0 <= j < i ==> (forall name :: name in outputs[j] ==> Encodable(outputs[j][name])) && ds[j] == ArraysOf(outputs[j])
    {
      var d := EncodeDatum(outputs[i]);
      if d.Err? {
        return Err(d.error);
      }
      ds := ds + [d.value];
    }
    r := Ok(ds);
  }

  // serialize_forward_backward_output_proto, up to the protobuf encoding of the records.
  method Serialize(tag: string, outputs: seq<Output>) returns (r: Result<seq<Record>, EncodeError>, ghost ds: seq<Datum>, ghost groups: seq<seq<Datum>>)
    requires Typed(outputs)
    ensures r.Ok? <==> SameFields(outputs) && AllEncodable(outputs)
    ensures r.Ok? ==> |ds| == |outputs| && forall i :: 0 <= i < |outputs| ==> ds[i] == ArraysOf(outputs[i])
    ensures r.Ok? && outputs == [] ==> r.value == [] && groups == []
    ensures r == Err(FieldsDiffer) <==> !SameFields(outputs)
    ensures r.Ok? && outputs != [] ==> Encodes(r.value, tag, outputs[0].Keys, groups) && Runs(groups, ds, outputs[0].Keys)
    ensures r.Ok? ==> forall g :: 0 <= g < |r.value| ==> Decodable(r.value[g])
    ensures r.Ok? && outputs != [] ==> (DecodeAll(r.value) == ds <==> AllDetermined(ds, outputs[0].Keys))
    ensures r.Ok? <==> (forall i :: 0 < i < |outputs| ==> outputs[i].Keys == outputs[0].Keys) && AllSendable(outputs)
    ensures r.Ok? ==> forall g :: 0 <= g < |r.value| ==> r.value[g].typeTag == tag
    ensures r.Ok? ==> (ReadBack(outputs, DecodeAll(r.value)) <==> AllLeadingKnown(outputs))
  {
    SendableExactly(outputs);
    ds, groups := [], [];
    if outputs == [] {
      return Ok([]), ds, groups;
    }
    if exists i :: 0 < i < |outputs| && outputs[i].Keys != outputs[0].Keys {
      return Err(FieldsDiffer), ds, groups;
    }
    var encoded := EncodeDatums(outputs);
    if encoded.Err? {
      return Err(encoded.error), ds, groups;
    }
    ds := encoded.value;
    EncodedHaveFields(outputs, ds);
    var records;
    records, groups := EncodeRecords(tag, outputs[0].Keys, encoded.value);
    r := Ok(records);
    ReadBackExactly(outputs, ds, DecodeAll(records));
  }

  // ---------- What a client reads back, on the tensors as they were given ----------

  function Cells(shape: seq<int>): int {
    if shape == [] then 1 else shape[0] * Cells(shape[1..])
  }

  predicate HasShape(t: TensorData) {
    t.shape.Some? && t.shape.value != []
  }

  // A known dtype, dense, and a shape, if it has one, with as many cells as there are elements.
  ghost predicate Sendable(t: TensorData) {
    && t.dtype.Some? && !t.sparse
    && (HasShape(t) ==> (forall k :: 0 <= k < |t.shape.value| ==> t.shape.value[k] >= 0) && Cells(t.shape.value) == |t.elems|)
  }

  ghost predicate AllSendable(outputs: seq<Output>) {
    forall i, name :: 0 <= i < |outputs| && name in outputs[i] ==> Sendable(outputs[i][name])
  }

  // The same dtype and elements, in the shape it has, or as a vector if it has none.
  ghost predicate Carries(t: TensorData, a: Array) {
    && t.dtype == Some(a.dtype) && a.elems == t.elems
    && if HasShape(t) then |a.shape| == |t.shape.value| && forall k :: 0 <= k < |a.shape| ==> a.shape[k] == t.shape.value[k]
       else a.shape == [|t.elems|]
  }

  // The elements and the other dimensions leave one possible leading dimension.
  ghost predicate LeadingKnown(t: TensorData) {
    HasShape(t) ==> Cells(t.shape.value[1..]) != 0 || t.shape.value[0] == 0
  }

  ghost predicate AllLeadingKnown(outputs: seq<Output>) {
    forall i, name :: 0 <= i < |outputs| && name in outputs[i] ==> LeadingKnown(outputs[i][name])
  }

  // One datum per output, with its fields, each carrying its tensor.
  ghost predicate ReadBack(outputs: seq<Output>, back: seq<Datum>) {
    && |back| == |outputs|
    && forall i :: 0 <= i < |outputs| ==> CarriesAll(outputs[i], back[i])
  }

  ghost predicate CarriesAll(o: Output, d: Datum) {
    d.Keys == o.Keys && forall name :: name in o ==> Carries(o[name], d[name])
  }

  lemma {:induction false} CellsAreProd(shape: seq<int>)
    requires NonNegative(shape)
    ensures Cells(shape) == Prod(AsShape(shape))
  {
    if shape != [] {
      CellsAreProd(shape[1..]);
      assert AsShape(shape)[1..] == AsShape(shape[1..]);
    }
  }

  lemma SendableIsEncodable(t: TensorData)
    ensures Encodable(t) <==> Sendable(t)
  {
    if HasShape(t) {
      if NonNegative(t.shape.value) {
        CellsAreProd(t.shape.value);
      }
    } else {
      assert AsShape(DeclaredShape(t)) == [|t.elems|] && AsShape(DeclaredShape(t))[1..] == [];
      assert Prod([|t.elems|]) == |t.elems|;
    }
  }

  lemma SendableExactly(outputs: seq<Output>)
    ensures AllSendable(outputs) <==> AllEncodable(outputs)
    ensures SameFields(outputs) <==> forall i :: 0 < i < |outputs| ==> outputs[i].Keys == outputs[0].Keys
  {
    forall i, name | 0 <= i < |outputs| && name in outputs[i]
      ensures Encodable(outputs[i][name]) <==> Sendable(outputs[i][name])
    {
      SendableIsEncodable(outputs[i][name]);
    }
  }

  lemma CarriedIsArray(t: TensorData, a: Array)
    requires Encodable(t)
    ensures Carries(t, a) <==> a == ArrayOf(t)
    ensures ArrayOf(t).shape != [] && (Determined(ArrayOf(t)) <==> LeadingKnown(t))
  {
    var own := ArrayOf(t);
    assert Carries(t, own);
    if Carries(t, a) {
      assert a.shape == own.shape;
    }
    if HasShape(t) {
      CellsAreProd(t.shape.value[1..]);
      assert own.shape[1..] == AsShape(t.shape.value[1..]);
    } else {
      assert own.shape[1..] == [];
    }
  }

  lemma DatumReadBack(o: Output, d: Datum)
    requires forall name :: name in o ==> Encodable(o[name])
    ensures CarriesAll(o, d) <==> d == ArraysOf(o)
    ensures DatumDetermined(ArraysOf(o), o.Keys) <==> forall name :: name in o ==> LeadingKnown(o[name])
  {
    forall name | name in o
      ensures Carries(o[name], ArrayOf(o[name])) && (name in d && Carries(o[name], d[name]) ==> d[name] == ArrayOf(o[name]))
      ensures ArrayOf(o[name]).shape != [] && (Determined(ArrayOf(o[name])) <==> LeadingKnown(o[name]))
    {
      CarriedIsArray(o[name], ArrayOf(o[name]));
      if name in d {
        CarriedIsArray(o[name], d[name]);
      }
    }
  }

  lemma ReadBackExactly(outputs: seq<Output>, ds: seq<Datum>, back: seq<Datum>)
    requires outputs != [] && SameFields(outputs) && AllEncodable(outputs)
    requires |ds| == |outputs| && forall i :: 0 <= i < |outputs| ==> ds[i] == ArraysOf(outputs[i])
    requires back == ds <==> AllDetermined(ds, outputs[0].Keys)
    ensures ReadBack(outputs, back) <==> AllLeadingKnown(outputs)
  {
    forall i | 0 <= i < |outputs|
      ensures i < |back| ==> (CarriesAll(outputs[i], back[i]) <==> back[i] == ds[i])
      ensures DatumDetermined(ds[i], outputs[0].Keys) <==> forall name :: name in outputs[i] ==> LeadingKnown(outputs[i][name])
    {
      DatumReadBack(outputs[i], if i < |back| then back[i] else ds[i]);
    }
    SameDatums(outputs, back, ds);
  }

  lemma SameDatums(outputs: seq<Output>, back: seq<Datum>, ds: seq<Datum>)
    requires |ds| == |outputs|
    requires forall i :: 0 <= i < |outputs| && i < |back| ==> (CarriesAll(outputs[i], back[i]) <==> back[i] == ds[i])
    ensures ReadBack(outputs, back) <==> back == ds
  {
    if back == ds {
      forall i | 0 <= i < |outputs|
        ensures CarriesAll(outputs[i], back[i])
      {
        assert back[i] == ds[i];
      }
    }
  }

  // The bytes are least significant first.
  lemma {:induction false} PackIsLittleEndian(x: nat, w: nat, j: nat)
    requires j < w
    ensures |Pack(x, w)| == w && Pack(x, w)[j] == (x / Pow256(j)) % 256
  {
    if j > 0 {
      PackIsLittleEndian(x / 256, w - 1, j - 1);
      DivTwice(x, Pow256(j - 1));
    } else if w > 1 {
      PackIsLittleEndian(x / 256, w - 1, 0);
    }
  }

  // Four or eight bytes an element.
  lemma {:induction false} BytesAre(elems: seq<nat>, t: DType)
    ensures |ToBytes(elems, Width(t))| == (if t == Float32 then 4 else 8) * |elems|
  {
    if elems != [] {
      PackLength(elems[0], Width(t));
      BytesAre(elems[1..], t);
    }
  }

  lemma {:induction false} PackLength(x: nat, w: nat)
    ensures |Pack(x, w)| == w
  {
    if w > 0 {
      PackLength(x / 256, w - 1);
    }
  }

  lemma DivTwice(x: nat, p: nat)
    requires p > 0
    ensures x / (256 * p) == (x / 256) / p
  {
    var q, r := x / 256 / p, x / 256 % p;
    assert x == 256 * (q * p + r) + x % 256;
    assert x == q * (256 * p) + (256 * r + x % 256) && 256 * r + x % 256 < 256 * p;
    DivUnique(x, 256 * p, q, 256 * r + x % 256);
  }

  lemma EncodedHaveFields(outputs: seq<Output>, ds: seq<Datum>)
    requires Typed(outputs) && SameFields(outputs) && AllEncodable(outputs) && |ds| == |outputs| && outputs != []
    requires forall i :: 0 <= i < |outputs| ==> ds[i] == ArraysOf(outputs[i])
    ensures AllHaveFields(ds, outputs[0].Keys)
  {
    forall i | 0 <= i < |ds|
      ensures HasFields(ds[i], outputs[0].Keys)
    {
      forall name | name in outputs[i]
        ensures IsArray(ds[i][name])
      {
        assert Encodable(outputs[i][name]);
      }
    }
  }

  // ---------- Round trip ----------

  predicate Decodable(r: Record) {
    forall name :: name in r.fields ==> forall i :: 0 <= i < r.numDatums ==> SliceOk(r.fields[name], i)
  }

  function DecodeDatum(r: Record, i: nat): Datum
    requires Decodable(r) && i < r.numDatums
  {
    map name | name in r.fields :: DecodeOne(r.fields[name], i)
  }

  function DecodeRecord(r: Record): seq<Datum>
    requires Decodable(r)
  {
    seq(r.numDatums, i requires 0 <= i < r.numDatums => DecodeDatum(r, i))
  }

  function Pieces(records: seq<Record>): seq<seq<Datum>>
    requires forall g :: 0 <= g < |records| ==> Decodable(records[g])
  {
    seq(|records|, g requires 0 <= g < |records| => DecodeRecord(records[g]))
  }

  function DecodeAll(records: seq<Record>): seq<Datum>
    requires forall g :: 0 <= g < |records| ==> Decodable(records[g])
  {
    Flatten(Pieces(records))
  }

  // The trailing shape and the number of elements determine the leading dimension.
  predicate Determined(a: Array)
    requires a.shape != []
  {
    Prod(a.shape[1..]) != 0 || a.shape[0] == 0
  }

  ghost predicate DatumDetermined(d: Datum, fields: set<string>) {
    forall name :: name in fields ==> name in d && d[name].shape != [] && Determined(d[name])
  }

  ghost predicate AllDetermined(ds: seq<Datum>, fields: set<string>) {
    forall i :: 0 <= i < |ds| ==> DatumDetermined(ds[i], fields)
  }

  lemma RecordIsDecodable(r: Record, tag: string, fields: set<string>, group: seq<Datum>)
    requires IsRecord(r, tag, fields, group) && Uniform(group, fields)
    ensures Decodable(r)
  {
    forall name | name in r.fields
      ensures forall i :: 0 <= i < r.numDatums ==> SliceOk(r.fields[name], i)
    {
      forall i | 0 <= i < r.numDatums
        ensures SliceOk(r.fields[name], i)
      {
        ColumnRoundTrip(group, fields, name, i);
      }
    }
  }

  lemma ColumnRoundTrip(group: seq<Datum>, fields: set<string>, name: string, i: nat)
    requires Uniform(group, fields) && name in fields && i < |group|
    ensures HasFields(group[0], fields) && HasFields(group[i], fields) && AllHaveFields(group, fields)
    ensures var b := BatchOf(Column(group, name));
            && SliceOk(b, i) && (DecodeOne(b, i) == group[i][name] <==> Determined(group[i][name]))
  {
    assert Alike(group[0], group[i], fields);
    forall j | 0 <= j < |group|
      ensures HasFields(group[j], fields)
    {
      assert Alike(group[0], group[j], fields);
    }
    FieldRoundTripExactly(Column(group, name), i);
  }

  lemma RecordRoundTrip(r: Record, tag: string, fields: set<string>, group: seq<Datum>)
    requires IsRecord(r, tag, fields, group) && Uniform(group, fields)
    ensures Decodable(r) && |DecodeRecord(r)| == |group|
    ensures DecodeRecord(r) == group <==> AllDetermined(group, fields)
  {
    RecordIsDecodable(r, tag, fields, group);
    var back := DecodeRecord(r);
    forall i | 0 <= i < |group|
      ensures back[i] == group[i] <==> DatumDetermined(group[i], fields)
    {
      DatumRoundTrip(r, tag, fields, group, i);
    }
    if back == group {
      forall i | 0 <= i < |group|
        ensures DatumDetermined(group[i], fields)
      {
        assert back[i] == group[i];
      }
    }
  }

  lemma DatumRoundTrip(r: Record, tag: string, fields: set<string>, group: seq<Datum>, i: nat)
    requires IsRecord(r, tag, fields, group) && Uniform(group, fields) && Decodable(r) && i < |group|
    ensures DecodeDatum(r, i) == group[i] <==> DatumDetermined(group[i], fields)
  {
    NamesRoundTrip(r, tag, fields, group, i);
    SameFieldByField(DecodeDatum(r, i), group[i], fields);
  }

  lemma NamesRoundTrip(r: Record, tag: string, fields: set<string>, group: seq<Datum>, i: nat)
    requires IsRecord(r, tag, fields, group) && Uniform(group, fields) && Decodable(r) && i < |group|
    ensures DecodeDatum(r, i).Keys == fields == group[i].Keys
    ensures forall name :: name in fields ==> group[i][name].shape != []
    ensures forall name :: name in fields ==> (DecodeDatum(r, i)[name] == group[i][name] <==> Determined(group[i][name]))
  {
    assert HasFields(group[i], fields);
    forall name | name in fields
      ensures DecodeDatum(r, i)[name] == group[i][name] <==> Determined(group[i][name])
    {
      NamedRoundTrip(r, tag, fields, group, i, name);
    }
  }

  lemma NamedRoundTrip(r: Record, tag: string, fields: set<string>, group: seq<Datum>, i: nat, name: string)
    requires IsRecord(r, tag, fields, group) && Uniform(group, fields) && Decodable(r) && i < |group| && name in fields
    ensures name in group[i] && group[i][name].shape != []
    ensures DecodeDatum(r, i)[name] == group[i][name] <==> Determined(group[i][name])
  {
    ColumnRoundTrip(group, fields, name, i);
  }

  lemma SameFieldByField(d: Datum, e: Datum, fields: set<string>)
    requires d.Keys == fields == e.Keys && forall name :: name in fields ==> e[name].shape != []
    requires forall name :: name in fields ==> (d[name] == e[name] <==> Determined(e[name]))
    ensures d == e <==> DatumDetermined(e, fields)
  {
    if d == e {
      forall name | name in fields
        ensures Determined(e[name])
      {
        assert d[name] == e[name];
      }
    }
  }

  lemma {:induction false} SamePiecesSameWhole<T>(xs: seq<seq<T>>, ys: seq<seq<T>>)
    requires |xs| == |ys| && forall g :: 0 <= g < |xs| ==> |xs[g]| == |ys[g]|
    ensures |Flatten(xs)| == |Flatten(ys)| && (Flatten(xs) == Flatten(ys) <==> xs == ys)
  {
    if xs != [] {
      var n := |xs| - 1;
      SamePiecesSameWhole(xs[..n], ys[..n]);
      var a, b := Flatten(xs[..n]), Flatten(ys[..n]);
      if Flatten(xs) == Flatten(ys) {
        assert (a + xs[n])[..|a|] == (b + ys[n])[..|a|] && (a + xs[n])[|a|..] == (b + ys[n])[|a|..];
        assert xs == xs[..n] + [xs[n]] && ys == ys[..n] + [ys[n]];
      }
    }
  }

  // Decoding the records in order gives back every datum's fields, shapes and dtypes
  // exactly when every tensor's leading dimension is determined by its bytes.
  lemma RoundTripExactlyWhenDetermined(records: seq<Record>, tag: string, fields: set<string>, groups: seq<seq<Datum>>, ds: seq<Datum>)
    requires Encodes(records, tag, fields, groups) && Runs(groups, ds, fields)
    ensures forall g :: 0 <= g < |records| ==> Decodable(records[g])
    ensures DecodeAll(records) == ds <==> AllDetermined(ds, fields)
  {
    RecordsDecodable(records, tag, fields, groups);
    PiecesRoundTrip(records, tag, fields, groups);
    SamePiecesSameWhole(Pieces(records), groups);
    DeterminedByGroups(groups, fields);
    PieceByPiece(Pieces(records), groups, fields);
  }

  lemma RecordsDecodable(records: seq<Record>, tag: string, fields: set<string>, groups: seq<seq<Datum>>)
    requires Encodes(records, tag, fields, groups) && forall g :: 0 <= g < |groups| ==> Uniform(groups[g], fields)
    ensures forall g :: 0 <= g < |records| ==> Decodable(records[g])
  {
    forall g | 0 <= g < |records|
      ensures Decodable(records[g])
    {
      RecordIsDecodable(records[g], tag, fields, groups[g]);
    }
  }

  lemma PiecesRoundTrip(records: seq<Record>, tag: string, fields: set<string>, groups: seq<seq<Datum>>)
    requires Encodes(records, tag, fields, groups) && forall g :: 0 <= g < |groups| ==> Uniform(groups[g], fields)
    requires forall g :: 0 <= g < |records| ==> Decodable(records[g])
    ensures |Pieces(records)| == |groups|
    ensures forall g :: 0 <= g < |groups| ==> |Pieces(records)[g]| == |groups[g]|
    ensures forall g :: 0 <= g < |groups| ==> (Pieces(records)[g] == groups[g] <==> AllDetermined(groups[g], fields))
  {
    forall g | 0 <= g < |groups|
      ensures |Pieces(records)[g]| == |groups[g]|
      ensures Pieces(records)[g] == groups[g] <==> AllDetermined(groups[g], fields)
    {
      RecordRoundTrip(records[g], tag, fields, groups[g]);
    }
  }

  lemma PieceByPiece(back: seq<seq<Datum>>, groups: seq<seq<Datum>>, fields: set<string>)
    requires |back| == |groups|
    requires forall g :: 0 <= g < |groups| ==> (back[g] == groups[g] <==> AllDetermined(groups[g], fields))
    ensures back == groups <==> forall g :: 0 <= g < |groups| ==> AllDetermined(groups[g], fields)
  {
    if back == groups {
      forall g | 0 <= g < |groups|
        ensures AllDetermined(groups[g], fields)
      {
        assert back[g] == groups[g];
      }
    }
  }

  lemma {:induction false} DeterminedByGroups(groups: seq<seq<Datum>>, fields: set<string>)
    ensures AllDetermined(Flatten(groups), fields) <==> forall g :: 0 <= g < |groups| ==> AllDetermined(groups[g], fields)
  {
    if groups != [] {
      var n := |groups| - 1;
      DeterminedByGroups(groups[..n], fields);
      DeterminedAppend(Flatten(groups[..n]), groups[n], fields);
      assert forall g :: 0 <= g < n ==> groups[..n][g] == groups[g];
    }
  }

  lemma DeterminedAppend(a: seq<Datum>, b: seq<Datum>, fields: set<string>)
    ensures AllDetermined(a + b, fields) <==> AllDetermined(a, fields) && AllDetermined(b, fields)
  {
    if AllDetermined(a + b, fields) {
      forall i | 0 <= i < |a|
        ensures DatumDetermined(a[i], fields)
      {
        assert (a + b)[i] == a[i];
      }
      forall i | 0 <= i < |b|
        ensures DatumDetermined(b[i], fields)
      {
        assert (a + b)[|a| + i] == b[i];
      }
    }
  }
}
