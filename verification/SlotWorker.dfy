// One rank's pool of adapter slots: MultiAdapterFSDPWorker
// (src/tuft/backends/fsdp_training_backend.py).
module SlotWorker {
  import opened Wrappers
  import opened SlotNames

  // Every operation on a parameter here is elementwise, so a parameter is one real.
  datatype Hyper = Hyper(lr: real, weightDecay: real, betas: (real, real), eps: real)

  datatype Moment = Moment(first: real, second: real, step: nat)

  // Moments are indexed by position among the optimizer's parameters.
  datatype Optimizer = Optimizer(hyper: Hyper, members: seq<string>, moments: map<nat, Moment>)

  datatype AdapterInfo = AdapterInfo(rank: nat, optimizer: Option<Optimizer>, steps: nat)

  const DEFAULT_HYPER := Hyper(0.0001, 0.01, (0.9, 0.999), 0.00000001)

  // ---------- named_parameters() after PEFT has added the slots ----------

  function Halves(layer: string, h: Half, slots: seq<string>): seq<string> {
    seq(|slots|, i requires 0 <= i < |slots| => LoraName(layer, h, slots[i]))
  }

  function LoraParams(layers: seq<string>, slots: seq<string>): seq<string> {
    if layers == [] then []
    else
      var n := |layers| - 1;
      LoraParams(layers[..n], slots) + (Halves(layers[n], A, slots) + Halves(layers[n], B, slots))
  }

  // The parameters of one slot, in the order in which they are enumerated.
  function SlotParams(layers: seq<string>, slot: string): seq<string> {
    if layers == [] then []
    else
      var n := |layers| - 1;
      SlotParams(layers[..n], slot) + [LoraName(layers[n], A, slot), LoraName(layers[n], B, slot)]
  }

  function Select(params: seq<string>, name: string): seq<string> {
    if params == [] then []
    else
      var n := |params| - 1;
      Select(params[..n], name) + if Mentions(params[n], name) then [params[n]] else []
  }

  lemma {:induction false} SelectAppend(p: seq<string>, q: seq<string>, name: string)
    ensures Select(p + q, name) == Select(p, name) + Select(q, name)
  {
    if q == [] {
      assert p + q == p;
    } else {
      assert (p + q)[..|p + q| - 1] == p + q[..|q| - 1];
      SelectAppend(p, q[..|q| - 1], name);
    }
  }

  lemma {:induction false} SelectNone(params: seq<string>, name: string)
    requires forall i :: 0 <= i < |params| ==> !Mentions(params[i], name)
    ensures Select(params, name) == []
  {
    if params != [] {
      SelectNone(params[..|params| - 1], name);
    }
  }

  ghost predicate NamedSlots(slots: seq<string>) {
    && (forall i :: 0 <= i < |slots| ==> IsAdapterName(slots[i]))
    && (forall i, j :: 0 <= i < j < |slots| ==> slots[i] != slots[j])
  }

  lemma SelectHalves(layer: string, h: Half, slots: seq<string>, k: nat)
    requires Clean(layer) && NamedSlots(slots) && k < |slots|
    ensures Select(Halves(layer, h, slots), slots[k]) == [LoraName(layer, h, slots[k])]
  {
    var all := Halves(layer, h, slots);
    forall i | 0 <= i < |slots|
      ensures Mentions(all[i], slots[k]) <==> i == k
    {
      LoraNameMatches(layer, h, slots[i], slots[k]);
    }
    assert all == all[..k] + ([all[k]] + all[k + 1..]);
    SelectNone(all[..k], slots[k]);
    SelectNone(all[k + 1..], slots[k]);
    SelectAppend(all[..k], [all[k]] + all[k + 1..], slots[k]);
    SelectAppend([all[k]], all[k + 1..], slots[k]);
    SelectOne(all[k], slots[k]);
  }

  lemma SelectOne(key: string, name: string)
    requires Mentions(key, name)
    ensures Select([key], name) == [key]
  {
    assert [key][..0] == [];
  }

  lemma SelectLayer(layer: string, slots: seq<string>, k: nat)
    requires Clean(layer) && NamedSlots(slots) && k < |slots|
    ensures Select(Halves(layer, A, slots) + Halves(layer, B, slots), slots[k])
              == [LoraName(layer, A, slots[k]), LoraName(layer, B, slots[k])]
  {
    SelectHalves(layer, A, slots, k);
    SelectHalves(layer, B, slots, k);
    SelectAppend(Halves(layer, A, slots), Halves(layer, B, slots), slots[k]);
  }

  ghost predicate CleanAll(paths: seq<string>) {
    forall i :: 0 <= i < |paths| ==> Clean(paths[i])
  }

  // The parameters the `.slot.` test selects are exactly the slot's own, in layer order.
  lemma {:induction false} SelectIsSlotParams(layers: seq<string>, slots: seq<string>, k: nat)
    requires NamedSlots(slots) && k < |slots| && CleanAll(layers)
    ensures Select(LoraParams(layers, slots), slots[k]) == SlotParams(layers, slots[k])
  {
    if layers != [] {
      var n := |layers| - 1;
      SelectIsSlotParams(layers[..n], slots, k);
      SelectLayer(layers[n], slots, k);
      SelectAppend(LoraParams(layers[..n], slots), Halves(layers[n], A, slots) + Halves(layers[n], B, slots), slots[k]);
    }
  }

  // ---------- What a slot holds ----------

  function Lookup(m: map<string, real>, k: string): Option<real> {
    if k in m then Some(m[k]) else None
  }

  function OnSlot(m: map<string, real>, layers: seq<string>, slot: string): seq<Option<real>> {
    var params := SlotParams(layers, slot);
    seq(|params|, i requires 0 <= i < |params| => Lookup(m, params[i]))
  }

  // The weights and gradients of one slot, by position, without its name.
  datatype SlotState = SlotState(info: AdapterInfo, weights: seq<Option<real>>, grads: seq<Option<real>>)

  // What a slot's weights are drawn as, by position: lora_A from init, lora_B zero.
  function FreshWeights(layers: seq<string>, slot: string, init: string -> real): seq<Option<real>> {
    var params := SlotParams(layers, slot);
    seq(|params|, i requires 0 <= i < |params| => Some(if i % 2 == 1 then 0.0 else init(params[i])))
  }

  // Every weight as drawn, none left from before; no optimizer, no steps, no gradients.
  ghost predicate Fresh(s: SlotState, drawn: seq<Option<real>>) {
    && s.info.optimizer.None? && s.info.steps == 0
    && (forall i :: 0 <= i < |s.grads| ==> s.grads[i] == None)
    && s.weights == drawn
  }

  // The two maps differ at most on parameters that mention the name.
  ghost predicate AgreeOff(m: map<string, real>, m': map<string, real>, name: string) {
    forall k :: !Mentions(k, name) ==> Lookup(m, k) == Lookup(m', k)
  }

  lemma {:induction false} OtherSlotUnmentioned(layers: seq<string>, slot: string, name: string)
    requires CleanAll(layers) && IsAdapterName(slot) && IsAdapterName(name) && slot != name
    ensures forall i :: 0 <= i < |SlotParams(layers, slot)| ==> !Mentions(SlotParams(layers, slot)[i], name)
  {
    if layers != [] {
      var n := |layers| - 1;
      OtherSlotUnmentioned(layers[..n], slot, name);
      LoraNameMatches(layers[n], A, slot, name);
      LoraNameMatches(layers[n], B, slot, name);
    }
  }

  lemma {:induction false} SlotParamAt(layers: seq<string>, slot: string)
    ensures |SlotParams(layers, slot)| == 2 * |layers|
    ensures forall i :: 0 <= i < 2 * |layers| ==> SlotParams(layers, slot)[i] == LoraName(layers[i / 2], HalfAt(i), slot)
  {
    if layers != [] {
      var n := |layers| - 1;
      var most := SlotParams(layers[..n], slot);
      var a, b := LoraName(layers[n], A, slot), LoraName(layers[n], B, slot);
      SlotParamAt(layers[..n], slot);
      assert SlotParams(layers, slot) == most + [a, b];
      forall i | 0 <= i < 2 * |layers|
        ensures (most + [a, b])[i] == LoraName(layers[i / 2], HalfAt(i), slot)
      {
        if i < 2 * n {
          assert layers[..n][i / 2] == layers[i / 2];
        }
      }
    }
  }

  lemma SlotParamsShape(layers: seq<string>, slot: string)
    requires CleanAll(layers) && IsAdapterName(slot)
    ensures |SlotParams(layers, slot)| == 2 * |layers|
    ensures forall i :: 0 <= i < 2 * |layers| ==> Mentions(SlotParams(layers, slot)[i], slot)
    ensures forall i :: 0 <= i < 2 * |layers| ==> (Mentions(SlotParams(layers, slot)[i], "lora_B") <==> i % 2 == 1)
    ensures forall i :: 0 <= i < 2 * |layers| ==> (Mentions(SlotParams(layers, slot)[i], "lora_A") <==> i % 2 == 0)
  {
    SlotParamAt(layers, slot);
    forall i | 0 <= i < 2 * |layers|
      ensures Mentions(SlotParams(layers, slot)[i], slot)
      ensures Mentions(SlotParams(layers, slot)[i], "lora_B") <==> i % 2 == 1
      ensures Mentions(SlotParams(layers, slot)[i], "lora_A") <==> i % 2 == 0
    {
      LoraNameMatches(layers[i / 2], HalfAt(i), slot, slot);
    }
  }

  function HalfAt(i: nat): Half {
    if i % 2 == 0 then A else B
  }

  // An update confined to one slot's parameters leaves every other slot as it was.
  lemma OtherSlotsAgree(layers: seq<string>, m: map<string, real>, m': map<string, real>, slot: string, name: string)
    requires CleanAll(layers) && IsAdapterName(slot) && IsAdapterName(name) && slot != name && AgreeOff(m, m', name)
    ensures OnSlot(m', layers, slot) == OnSlot(m, layers, slot)
  {
    OtherSlotUnmentioned(layers, slot, name);
  }

  // What changes while the pool runs.
  datatype Pool = Pool(infos: map<string, AdapterInfo>, weights: map<string, real>, grads: map<string, real>)

  function StateOf(p: Pool, layers: seq<string>, slot: string): SlotState
    requires slot in p.infos
  {
    SlotState(p.infos[slot], OnSlot(p.weights, layers, slot), OnSlot(p.grads, layers, slot))
  }

  // The whole effect is confined to one slot: the base model and every other slot are as before.
  ghost predicate OnlyTouches(p: Pool, p': Pool, layers: seq<string>, name: string) {
    && AgreeOff(p.weights, p'.weights, name) && AgreeOff(p.grads, p'.grads, name)
    && p'.infos.Keys == p.infos.Keys
    && forall t :: t in p.infos && t != name ==> StateOf(p', layers, t) == StateOf(p, layers, t)
  }

  lemma ConfinedKeepsOthers(p: Pool, p': Pool, layers: seq<string>, name: string)
    requires AgreeOff(p.weights, p'.weights, name) && AgreeOff(p.grads, p'.grads, name)
    requires p'.infos.Keys == p.infos.Keys && forall n :: n in p.infos && n != name ==> p'.infos[n] == p.infos[n]
    requires CleanAll(layers) && IsAdapterName(name) && forall n :: n in p.infos ==> IsAdapterName(n)
    ensures OnlyTouches(p, p', layers, name)
  {
    forall t | t in p.infos && t != name
      ensures StateOf(p', layers, t) == StateOf(p, layers, t)
    {
      OtherSlotsAgree(layers, p.weights, p'.weights, t, name);
      OtherSlotsAgree(layers, p.grads, p'.grads, t, name);
    }
  }

  // ---------- Resetting ----------

  // One parameter after _reinit_adapter_weights: lora_B zero, lora_A drawn afresh.
  function ResetValue(k: string, x: real, name: string, init: string -> real): real {
    if !Mentions(k, name) then x
    else if Mentions(k, "lora_B") then 0.0
    else if Mentions(k, "lora_A") then init(k)
    else x
  }

  ghost predicate Resetting(before: map<string, real>, seen: seq<string>, name: string, init: string -> real, now: map<string, real>) {
    forall k :: Lookup(now, k) == if k in before && k in seen then Some(ResetValue(k, before[k], name, init)) else Lookup(before, k)
  }

  lemma ResetStep(before: map<string, real>, seen: seq<string>, name: string, init: string -> real, now: map<string, real>, k: string)
    requires Resetting(before, seen, name, init, now) && k in before
    ensures Resetting(before, seen + [k], name, init, now[k := ResetValue(k, Lookup(now, k).value, name, init)])
  {
    assert Lookup(now, k).Some?;
  }

  ghost predicate Clearing(before: map<string, real>, seen: seq<string>, name: string, now: map<string, real>) {
    forall k :: Lookup(now, k) == if k in seen && Mentions(k, name) then None else Lookup(before, k)
  }

  lemma ClearStep(before: map<string, real>, seen: seq<string>, name: string, now: map<string, real>, k: string)
    requires Clearing(before, seen, name, now)
    ensures Clearing(before, seen + [k], name, if Mentions(k, name) then now - {k} else now)
  {
  }

  // ---------- One slot's own arithmetic, by position ----------

  datatype HyperUpdate = HyperUpdate(lr: Option<real>, weightDecay: Option<real>, betas: Option<(real, real)>, eps: Option<real>)

  datatype AdamOut = AdamOut(weight: real, moment: Moment)

  // torch.optim.AdamW on one coordinate, and the factor of clip_grad_norm_ for the given gradients.
  type Adam = (Hyper, Option<Moment>, real, real) -> AdamOut
  type ClipFactor = (seq<Option<real>>, real) -> real

  function Updated(h: Hyper, u: HyperUpdate): Hyper {
    Hyper(if u.lr.Some? then u.lr.value else h.lr,
          if u.weightDecay.Some? then u.weightDecay.value else h.weightDecay,
          if u.betas.Some? then u.betas.value else h.betas,
          if u.eps.Some? then u.eps.value else h.eps)
  }

  function Clipped(gs: seq<Option<real>>, clip: Option<real>, factor: ClipFactor): seq<Option<real>> {
    if clip.Some? && clip.value > 0.0 then
      seq(|gs|, i requires 0 <= i < |gs| => if gs[i].Some? then Some(Times(factor(gs, clip.value), gs[i].value)) else None)
    else gs
  }

  function Times(c: real, x: real): real {
    c * x
  }

  function MomentAt(moments: map<nat, Moment>, i: nat): Option<Moment> {
    if i in moments then Some(moments[i]) else None
  }

  function StepAt(h: Hyper, adam: Adam, m: Option<Moment>, w: Option<real>, g: Option<real>): (Option<real>, Option<Moment>) {
    if w.Some? && g.Some? then
      var out := adam(h, m, w.value, g.value);
      (Some(out.weight), Some(out.moment))
    else (w, m)
  }

  // The slot's weights and moments after the first n parameters have been stepped.
  ghost predicate SteppedTo(h: Hyper, adam: Adam, n: nat, ws: seq<Option<real>>, gs: seq<Option<real>>, ms: map<nat, Moment>,
                            ws': seq<Option<real>>, ms': map<nat, Moment>) {
    && |ws'| == |ws| == |gs|
    && (forall i :: 0 <= i < |ws| ==>
                      ws'[i] == if i < n then StepAt(h, adam, MomentAt(ms, i), ws[i], gs[i]).0 else ws[i])
    && (forall i: nat :: MomentAt(ms', i) == if i < n && i < |ws| then StepAt(h, adam, MomentAt(ms, i), ws[i], gs[i]).1 else MomentAt(ms, i))
  }

  ghost predicate Distinct(xs: seq<string>) {
    forall i, j :: 0 <= i < j < |xs| ==> xs[i] != xs[j]
  }

  lemma SlotParamsDistinct(layers: seq<string>, slot: string)
    requires Distinct(layers) && NoDot(slot)
    ensures Distinct(SlotParams(layers, slot))
  {
    SlotParamAt(layers, slot);
    forall i, j | 0 <= i < j < 2 * |layers|
      ensures SlotParams(layers, slot)[i] != SlotParams(layers, slot)[j]
    {
      if LoraName(layers[i / 2], HalfAt(i), slot) == LoraName(layers[j / 2], HalfAt(j), slot) {
        LoraNameInjective(layers[i / 2], HalfAt(i), slot, layers[j / 2], HalfAt(j), slot);
        assert false;
      }
    }
  }

  // ---------- The pool's invariant ----------

  ghost predicate Geometry(layers: seq<string>, slots: seq<string>, params: seq<string>) {
    && NamedSlots(slots) && CleanAll(layers) && Distinct(layers)
    && forall i :: 0 <= i < |slots| ==> Select(params, slots[i]) == SlotParams(layers, slots[i])
  }

  ghost predicate Stored(params: seq<string>, weights: map<string, real>, grads: map<string, real>) {
    && (forall k :: k in weights <==> k in params)
    && (forall k :: k in grads ==> k in weights)
  }

  ghost predicate Registered(layers: seq<string>, slots: seq<string>, infos: map<string, AdapterInfo>) {
    && (forall n :: n in infos <==> n in slots)
    && (forall n :: n in infos ==> MembersOk(infos[n], layers, n))
  }

  ghost predicate MembersOk(info: AdapterInfo, layers: seq<string>, name: string) {
    info.optimizer.Some? ==> info.optimizer.value.members == SlotParams(layers, name)
  }

  function WithOptimizer(info: AdapterInfo, layers: seq<string>, name: string): AdapterInfo {
    if info.optimizer.Some? then info
    else info.(optimizer := Some(Optimizer(DEFAULT_HYPER, SlotParams(layers, name), map[])))
  }

  // The slots of a rank, in creation order, carry its first generated names.
  ghost predicate Ranked(byRank: map<nat, seq<string>>, infos: map<string, AdapterInfo>) {
    && (forall r: nat, i: nat :: r in byRank && i < |byRank[r]| ==>
                                   byRank[r][i] == AdapterName(r, i) && byRank[r][i] in infos && infos[byRank[r][i]].rank == r)
    && (forall n :: n in infos ==> infos[n].rank in byRank && n in byRank[infos[n].rank])
  }

  lemma {:induction false} SelectMembers(params: seq<string>, name: string)
    ensures forall k :: k in Select(params, name) <==> k in params && Mentions(k, name)
  {
    if params != [] {
      var n := |params| - 1;
      SelectMembers(params[..n], name);
      assert params == params[..n] + [params[n]];
    }
  }

  // Registered slots are generated names and own parameters of the module.
  lemma SlotOwnsParams(layers: seq<string>, slots: seq<string>, params: seq<string>, name: string)
    requires Geometry(layers, slots, params) && name in slots
    ensures IsAdapterName(name) && Select(params, name) == SlotParams(layers, name)
    ensures forall k :: k in SlotParams(layers, name) ==> k in params && Mentions(k, name)
  {
    SelectMembers(params, name);
  }

  lemma SlotsAreAdapterNames(layers: seq<string>, slots: seq<string>, params: seq<string>)
    requires Geometry(layers, slots, params)
    ensures forall n :: n in slots ==> IsAdapterName(n)
  {
  }

  // Resetting the info, the weights and the gradients of one slot makes it fresh.
  lemma ResetIsFresh(p: Pool, p': Pool, layers: seq<string>, slots: seq<string>, params: seq<string>, name: string, init: string -> real)
    requires Geometry(layers, slots, params) && Stored(params, p.weights, p.grads) && Registered(layers, slots, p.infos)
    requires name in p.infos && p'.infos == p.infos[name := p.infos[name].(optimizer := None, steps := 0)]
    requires Resetting(p.weights, params, name, init, p'.weights) && Clearing(p.grads, params, name, p'.grads)
    ensures OnlyTouches(p, p', layers, name) && Fresh(StateOf(p', layers, name), FreshWeights(layers, name, init))
  {
    SlotOwnsParams(layers, slots, params, name);
    SlotsAreAdapterNames(layers, slots, params);
    ResetSlotValues(p, p', layers, params, name, init);
    ConfinedKeepsOthers(p, p', layers, name);
    FreshValues(StateOf(p', layers, name), p', layers, name, init);
  }

  lemma FreshValues(s: SlotState, p: Pool, layers: seq<string>, name: string, init: string -> real)
    requires name in p.infos && s == StateOf(p, layers, name)
    requires p.infos[name].optimizer == None && p.infos[name].steps == 0
    requires forall i :: 0 <= i < |SlotParams(layers, name)| ==> OnSlot(p.grads, layers, name)[i] == None
    requires OnSlot(p.weights, layers, name) == FreshWeights(layers, name, init)
    ensures Fresh(s, FreshWeights(layers, name, init))
  {
  }

  // ... and keeps the pool's invariant.
  lemma ResetKeepsPool(p: Pool, p': Pool, layers: seq<string>, slots: seq<string>, params: seq<string>, byRank: map<nat, seq<string>>,
                       name: string, init: string -> real)
    requires Stored(params, p.weights, p.grads) && Registered(layers, slots, p.infos) && Ranked(byRank, p.infos)
    requires name in p.infos && p'.infos == p.infos[name := p.infos[name].(optimizer := None, steps := 0)]
    requires Resetting(p.weights, params, name, init, p'.weights) && Clearing(p.grads, params, name, p'.grads)
    ensures Stored(params, p'.weights, p'.grads) && Registered(layers, slots, p'.infos) && Ranked(byRank, p'.infos)
  {
    ResetStored(p, p', params, name, init);
    SameRanks(byRank, p.infos, p'.infos);
  }

  lemma SameRanks(byRank: map<nat, seq<string>>, infos: map<string, AdapterInfo>, infos': map<string, AdapterInfo>)
    requires Ranked(byRank, infos) && infos'.Keys == infos.Keys && forall n :: n in infos ==> infos'[n].rank == infos[n].rank
    ensures Ranked(byRank, infos')
  {
  }

  lemma ResetSlotValues(p: Pool, p': Pool, layers: seq<string>, params: seq<string>, name: string, init: string -> real)
    requires Resetting(p.weights, params, name, init, p'.weights) && Clearing(p.grads, params, name, p'.grads)
    requires CleanAll(layers) && IsAdapterName(name) && forall k :: k in SlotParams(layers, name) ==> k in params
    requires Stored(params, p.weights, p.grads)
    ensures AgreeOff(p.weights, p'.weights, name) && AgreeOff(p.grads, p'.grads, name)
    ensures forall i :: 0 <= i < |SlotParams(layers, name)| ==> OnSlot(p'.grads, layers, name)[i] == None
    ensures OnSlot(p'.weights, layers, name) == FreshWeights(layers, name, init)
  {
    SlotParamsShape(layers, name);
    forall i | 0 <= i < |SlotParams(layers, name)|
      ensures OnSlot(p'.weights, layers, name)[i] == FreshWeights(layers, name, init)[i]
    {
      assert SlotParams(layers, name)[i] in SlotParams(layers, name);
    }
  }

  lemma ResetStored(p: Pool, p': Pool, params: seq<string>, name: string, init: string -> real)
    requires Resetting(p.weights, params, name, init, p'.weights) && Clearing(p.grads, params, name, p'.grads)
    requires Stored(params, p.weights, p.grads)
    ensures Stored(params, p'.weights, p'.grads)
  {
    forall k
      ensures k in p'.weights <==> k in params
      ensures k in p'.grads ==> k in p'.weights
    {
      assert Lookup(p'.weights, k).Some? <==> k in p'.weights;
      assert Lookup(p'.grads, k).Some? <==> k in p'.grads;
    }
  }

  // ---------- Building the pool ----------

  datatype RankCount = RankCount(rank: nat, count: nat)

  // The keys of the rank_slots dictionary.
  ghost predicate DistinctRanks(rankSlots: seq<RankCount>) {
    forall i, j :: 0 <= i < j < |rankSlots| ==> rankSlots[i].rank != rankSlots[j].rank
  }

  // Parameters of the base model mention no slot.
  ghost predicate BaseParams(base: seq<string>) {
    forall i, rank: nat, idx: nat :: 0 <= i < |base| ==> !Mentions(base[i], AdapterName(rank, idx))
  }

  ghost predicate Building(slots: seq<string>, infos: map<string, AdapterInfo>, byRank: map<nat, seq<string>>, counter: map<nat, nat>,
                           taken: map<string, bool>) {
    && NamedSlots(slots) && Ranked(byRank, infos)
    && (forall n :: n in infos <==> n in slots)
    && (forall n :: n in infos ==> infos[n].optimizer.None?)
    && (forall n :: n in taken ==> n in infos && !taken[n])
    && counter.Keys == byRank.Keys
    && (forall r :: r in byRank ==> |byRank[r]| == counter[r])
  }

  // The first n entries of rank_slots have their slots, the others none.
  ghost predicate Filled(byRank: map<nat, seq<string>>, rankSlots: seq<RankCount>, n: nat) {
    forall i :: 0 <= i < |rankSlots| ==>
                  (if rankSlots[i].rank in byRank then |byRank[rankSlots[i].rank]| else 0) == if i < n then rankSlots[i].count else 0
  }

  lemma AddedSlotIsNew(slots: seq<string>, infos: map<string, AdapterInfo>, byRank: map<nat, seq<string>>, rank: nat, names: seq<string>, name: string)
    requires Ranked(byRank, infos) && forall n :: n in infos <==> n in slots
    requires names == (if rank in byRank then byRank[rank] else []) && name == AdapterName(rank, |names|)
    ensures name !in slots && name !in infos
    ensures Ranked(byRank[rank := names + [name]], infos[name := AdapterInfo(rank, None, 0)])
  {
    if name in infos {
      var r := infos[name].rank;
      var i :| 0 <= i < |byRank[r]| && byRank[r][i] == name;
      assert byRank[r][i] == AdapterName(r, i);
      AdapterNameInjective(rank, |names|, r, i);
      assert false;
    }
    RankedExtends(byRank, infos, rank, names, name);
  }

  lemma RankedExtends(byRank: map<nat, seq<string>>, infos: map<string, AdapterInfo>, rank: nat, names: seq<string>, name: string)
    requires Ranked(byRank, infos) && name !in infos
    requires names == (if rank in byRank then byRank[rank] else []) && name == AdapterName(rank, |names|)
    ensures Ranked(byRank[rank := names + [name]], infos[name := AdapterInfo(rank, None, 0)])
  {
    var longer := byRank[rank := names + [name]];
    var infos' := infos[name := AdapterInfo(rank, None, 0)];
    forall n | n in infos'
      ensures infos'[n].rank in longer && n in longer[infos'[n].rank]
    {
      if n != name && infos[n].rank == rank {
        assert n in names;
      }
    }
    forall r: nat, i: nat | r in longer && i < |longer[r]|
      ensures longer[r][i] == AdapterName(r, i) && longer[r][i] in infos' && infos'[longer[r][i]].rank == r
    {
      if r == rank && i < |names| {
        assert byRank[r][i] == names[i];
      }
    }
  }

  lemma AddedSlot(slots: seq<string>, infos: map<string, AdapterInfo>, byRank: map<nat, seq<string>>, counter: map<nat, nat>,
                  taken: map<string, bool>, slots': seq<string>, infos': map<string, AdapterInfo>, byRank': map<nat, seq<string>>,
                  counter': map<nat, nat>, taken': map<string, bool>, rank: nat, name: string)
    requires Building(slots, infos, byRank, counter, taken)
    requires name == AdapterName(rank, if rank in counter then counter[rank] else 0)
    requires counter' == counter[rank := (if rank in counter then counter[rank] else 0) + 1]
    requires slots' == slots + [name] && infos' == infos[name := AdapterInfo(rank, None, 0)]
    requires byRank' == byRank[rank := RankList(byRank, rank) + [name]] && taken' == taken[name := false]
    ensures Building(slots', infos', byRank', counter', taken')
    ensures |RankList(byRank', rank)| == |RankList(byRank, rank)| + 1
  {
    AddedSlotIsNew(slots, infos, byRank, rank, RankList(byRank, rank), name);
    AddedSlotKeepsBuilding(slots, infos, byRank, counter, counter', taken, rank, RankList(byRank, rank), name);
  }

  lemma AddedSlotKeepsBuilding(slots: seq<string>, infos: map<string, AdapterInfo>, byRank: map<nat, seq<string>>, before: map<nat, nat>,
                               counter: map<nat, nat>, taken: map<string, bool>, rank: nat, names: seq<string>, name: string)
    requires Building(slots, infos, byRank, before, taken) && name !in slots
    requires names == (if rank in byRank then byRank[rank] else []) && name == AdapterName(rank, |names|)
    requires counter == before[rank := |names| + 1]
    requires Ranked(byRank[rank := names + [name]], infos[name := AdapterInfo(rank, None, 0)])
    ensures Building(slots + [name], infos[name := AdapterInfo(rank, None, 0)], byRank[rank := names + [name]], counter, taken[name := false])
  {
    assert IsAdapterName(name);
  }

  lemma FirstSlot(layers: seq<string>, slots: seq<string>, params: seq<string>, infos: map<string, AdapterInfo>)
    requires Geometry(layers, slots, params) && slots != [] && forall n :: n in infos <==> n in slots
    ensures slots[0] in infos && Select(params, slots[0]) == SlotParams(layers, slots[0])
  {
  }

  lemma BuiltPool(layers: seq<string>, slots: seq<string>, params: seq<string>, infos: map<string, AdapterInfo>,
                  infos': map<string, AdapterInfo>, byRank: map<nat, seq<string>>, counter: map<nat, nat>, taken: map<string, bool>,
                  weights: map<string, real>)
    requires Building(slots, infos, byRank, counter, taken) && slots != [] && slots[0] in infos
    requires infos' == infos[slots[0] := WithOptimizer(infos[slots[0]], layers, slots[0])]
    requires forall k :: k in weights <==> k in params
    ensures Stored(params, weights, map[]) && Registered(layers, slots, infos') && Ranked(byRank, infos')
    ensures forall n :: n in taken ==> n in infos' && !taken[n]
  {
    SameRanks(byRank, infos, infos');
  }

  lemma BuiltGeometry(layers: seq<string>, slots: seq<string>, base: seq<string>)
    requires NamedSlots(slots) && CleanAll(layers) && Distinct(layers) && BaseParams(base)
    ensures Geometry(layers, slots, base + LoraParams(layers, slots))
  {
    forall i | 0 <= i < |slots|
      ensures Select(base + LoraParams(layers, slots), slots[i]) == SlotParams(layers, slots[i])
    {
      var rank: nat, idx: nat :| slots[i] == AdapterName(rank, idx);
      SelectNone(base, slots[i]);
      SelectAppend(base, LoraParams(layers, slots), slots[i]);
      SelectIsSlotParams(layers, slots, i);
    }
  }

  datatype Image = Image(layers: seq<string>, slots: seq<string>, params: seq<string>, byRank: map<nat, seq<string>>,
                         pool: Pool, taken: map<string, bool>)

  ghost predicate Sound(im: Image) {
    && Geometry(im.layers, im.slots, im.params)
    && Stored(im.params, im.pool.weights, im.pool.grads)
    && Registered(im.layers, im.slots, im.pool.infos)
    && Ranked(im.byRank, im.pool.infos)
    && forall n :: n in im.taken ==> n in im.pool.infos
  }

  predicate TakenIn(taken: map<string, bool>, n: string) {
    n in taken && taken[n]
  }

  function RankList(byRank: map<nat, seq<string>>, rank: nat): seq<string> {
    if rank in byRank then byRank[rank] else []
  }

  ghost predicate AllTaken(byRank: map<nat, seq<string>>, taken: map<string, bool>, rank: nat) {
    forall i :: 0 <= i < |RankList(byRank, rank)| ==> TakenIn(taken, RankList(byRank, rank)[i])
  }

  // A free slot of the rank, or nothing when every one is taken.
  ghost predicate AnswersFor(byRank: map<nat, seq<string>>, taken: map<string, bool>, infos: map<string, AdapterInfo>, rank: nat, r: Option<string>) {
    if r.Some? then
      r.value in RankList(byRank, rank) && !TakenIn(taken, r.value) && r.value in infos && infos[r.value].rank == rank
    else AllTaken(byRank, taken, rank)
  }

  class Worker {
    const layers: seq<string>
    const targetModules: set<string>
    const targetParameters: set<string>
    var slots: seq<string>
    var params: seq<string>
    var infos: map<string, AdapterInfo>
    var byRank: map<nat, seq<string>>
    var counter: map<nat, nat>
    var taken: map<string, bool>
    var weights: map<string, real>
    var grads: map<string, real>
    var active: string

    constructor (layers: seq<string>, targetModules: set<string>, targetParameters: set<string>)
      ensures this.layers == layers && this.targetModules == targetModules && this.targetParameters == targetParameters
      ensures Empty()
    {
      this.layers, this.targetModules, this.targetParameters := layers, targetModules, targetParameters;
      slots, params, infos, byRank, counter, taken, weights, grads, active := [], [], map[], map[], map[], map[], map[], map[], "";
    }

    predicate Empty()
      reads this
    {
      slots == [] && infos == map[] && byRank == map[] && counter == map[] && taken == map[] && weights == map[] && grads == map[]
    }

    // ---------- Building the pool ----------

    method GenerateAdapterName(rank: nat) returns (name: string)
      modifies this`counter
      ensures name == AdapterName(rank, if rank in old(counter) then old(counter)[rank] else 0)
      ensures counter == old(counter)[rank := (if rank in old(counter) then old(counter)[rank] else 0) + 1]
    {
      if rank !in counter {
        counter := counter[rank := 0];
      }
      var idx := counter[rank];
      counter := counter[rank := counter[rank] + 1];
      name := AdapterName(rank, idx);
    }

    method AddSlot(rank: nat)
      requires Building(slots, infos, byRank, counter, taken)
      modifies this`slots, this`infos, this`byRank, this`counter, this`taken
      ensures Building(slots, infos, byRank, counter, taken) && slots != []
      ensures rank in byRank && byRank == old(byRank)[rank := byRank[rank]] && |byRank[rank]| == |old(RankSlots(rank))| + 1
    {
      var name := GenerateAdapterName(rank);
      RecordSlot(rank, name);
      AddedSlot(old(slots), old(infos), old(byRank), old(counter), old(taken), slots, infos, byRank, counter, taken, rank, name);
    }

    method RecordSlot(rank: nat, name: string)
      modifies this`slots, this`infos, this`byRank, this`taken
      ensures slots == old(slots) + [name] && infos == old(infos)[name := AdapterInfo(rank, None, 0)]
      ensures byRank == old(byRank)[rank := RankList(old(byRank), rank) + [name]] && taken == old(taken)[name := false]
    {
      slots := slots + [name];
      infos := infos[name := AdapterInfo(rank, None, 0)];
      byRank := byRank[rank := RankSlots(rank) + [name]];
      taken := taken[name := false];
    }

    method FillRank(rank: nat, count: nat, ghost rankSlots: seq<RankCount>, ghost i: nat)
      requires Building(slots, infos, byRank, counter, taken) && DistinctRanks(rankSlots) && Filled(byRank, rankSlots, i)
      requires i < |rankSlots| && rankSlots[i] == RankCount(rank, count)
      modifies this`slots, this`infos, this`byRank, this`counter, this`taken
      ensures Building(slots, infos, byRank, counter, taken) && Filled(byRank, rankSlots, i + 1)
      ensures slots != [] <==> old(slots) != [] || count > 0
    {
      for c := 0 to count
        invariant Building(slots, infos, byRank, counter, taken)
        invariant |RankSlots(rank)| == c && (c == 0 ==> slots == old(slots)) && (c > 0 ==> slots != [])
        invariant forall j :: 0 <= j < |rankSlots| && j != i ==> RankSlots(rankSlots[j].rank) == old(RankSlots(rankSlots[j].rank))
      {
        AddSlot(rank);
      }
    }

    // One slot per configured count, every rank in turn; no slots at all is an error.
    method Initialize(rankSlots: seq<RankCount>, base: seq<string>, init: string -> real) returns (ok: bool)
      requires Empty() && CleanAll(layers) && Distinct(layers) && BaseParams(base) && DistinctRanks(rankSlots)
      modifies this
      ensures ok <==> exists i :: 0 <= i < |rankSlots| && rankSlots[i].count > 0
      ensures ok ==> Valid() && forall n :: n in infos ==> !IsTaken(n)
      ensures ok ==> forall i :: 0 <= i < |rankSlots| ==> |RankSlots(rankSlots[i].rank)| == rankSlots[i].count
    {
      BuildSlots(rankSlots);
      if slots == [] {
        return false;
      }
      InstallParams(base, init);
      FinishPool(base);
      ok := true;
    }

    // What PEFT and FSDP leave as named_parameters(), lora_B zero.
    method InstallParams(base: seq<string>, init: string -> real)
      modifies this`params, this`weights
      ensures params == base + LoraParams(layers, slots) && forall k :: k in weights <==> k in params
    {
      params := base + LoraParams(layers, slots);
      var all := params;
      weights := map k | k in all :: if Mentions(k, "lora_B") then 0.0 else init(k);
    }

    method FinishPool(ghost base: seq<string>)
      requires Building(slots, infos, byRank, counter, taken) && slots != [] && grads == map[]
      requires CleanAll(layers) && Distinct(layers) && BaseParams(base)
      requires params == base + LoraParams(layers, slots) && forall k :: k in weights <==> k in params
      modifies this`infos, this`active
      ensures Valid() && forall n :: n in infos ==> !IsTaken(n)
    {
      BuiltGeometry(layers, slots, base);
      FirstSlot(layers, slots, params, infos);
      BuiltPool(layers, slots, params, infos, infos[slots[0] := WithOptimizer(infos[slots[0]], layers, slots[0])], byRank, counter, taken, weights);
      CreateOptimizer(slots[0]);
    }

    method BuildSlots(rankSlots: seq<RankCount>)
      requires Empty() && DistinctRanks(rankSlots)
      modifies this`slots, this`infos, this`byRank, this`counter, this`taken
      ensures Building(slots, infos, byRank, counter, taken) && Filled(byRank, rankSlots, |rankSlots|)
      ensures slots != [] <==> exists j :: 0 <= j < |rankSlots| && rankSlots[j].count > 0
    {
      for i := 0 to |rankSlots|
        invariant Building(slots, infos, byRank, counter, taken) && Filled(byRank, rankSlots, i)
        invariant slots != [] <==> exists j :: 0 <= j < i && rankSlots[j].count > 0
      {
        FillRank(rankSlots[i].rank, rankSlots[i].count, rankSlots, i);
      }
    }

    ghost predicate Valid()
      reads this
    {
      Sound(Look())
    }

    // Everything but which adapter is active.
    function Look(): Image
      reads this
    {
      Image(layers, slots, params, byRank, Snap(), taken)
    }

    function Snap(): Pool
      reads this
    {
      Pool(infos, weights, grads)
    }

    function State(slot: string): SlotState
      requires slot in infos
      reads this
    {
      StateOf(Snap(), layers, slot)
    }

    // ---------- Resetting a slot ----------

    method ReinitAdapterWeights(name: string, init: string -> real)
      requires Stored(params, weights, grads)
      modifies this`weights
      ensures Resetting(old(weights), params, name, init, weights)
    {
      ghost var before := weights;
      assert params[..0] == [];
      for i := 0 to |params|
        invariant Resetting(before, params[..i], name, init, weights)
      {
        var k := params[i];
        assert k in before;
        ResetStep(before, params[..i], name, init, weights, k);
        assert params[..i + 1] == params[..i] + [k];
        if Mentions(k, name) {
          if Mentions(k, "lora_B") {
            weights := weights[k := 0.0];
          } else if Mentions(k, "lora_A") {
            weights := weights[k := init(k)];
          }
        }
      }
      assert params[..|params|] == params;
    }

    method ClearGrads(name: string)
      modifies this`grads
      ensures Clearing(old(grads), params, name, grads)
    {
      ghost var before := grads;
      assert params[..0] == [];
      for i := 0 to |params|
        invariant Clearing(before, params[..i], name, grads)
      {
        var k := params[i];
        ClearStep(before, params[..i], name, grads, k);
        assert params[..i + 1] == params[..i] + [k];
        if Mentions(k, name) && k in grads {
          grads := grads - {k};
        }
        assert Clearing(before, params[..i + 1], name, grads);
      }
      assert params[..|params|] == params;
    }

    method ResetAdapterSlot(name: string, init: string -> real)
      requires Valid()
      modifies this`infos, this`weights, this`grads
      ensures Valid()
      ensures name !in infos ==> Snap() == old(Snap())
      ensures name in infos ==> Fresh(State(name), FreshWeights(layers, name, init)) && infos[name].rank == old(infos)[name].rank
      ensures OnlyTouches(old(Snap()), Snap(), layers, name)
    {
      if name !in infos {
        return;
      }
      ghost var before := Snap();
      ClearSlot(name, init);
      ResetIsFresh(before, Snap(), layers, slots, params, name, init);
      ResetKeepsPool(before, Snap(), layers, slots, params, byRank, name, init);
    }

    method ClearSlot(name: string, init: string -> real)
      requires name in infos && Stored(params, weights, grads)
      modifies this`infos, this`weights, this`grads
      ensures infos == old(infos)[name := old(infos)[name].(optimizer := None, steps := 0)]
      ensures Resetting(old(weights), params, name, init, weights) && Clearing(old(grads), params, name, grads)
    {
      infos := infos[name := infos[name].(optimizer := None, steps := 0)];
      ReinitAdapterWeights(name, init);
      ClearGrads(name);
    }

    // ---------- Slot allocation ----------

    predicate IsTaken(name: string)
      reads this
    {
      TakenIn(taken, name)
    }

    function RankSlots(rank: nat): seq<string>
      reads this
    {
      RankList(byRank, rank)
    }

    // The first slot of the rank that no run holds.
    method FirstFree(rank: nat) returns (r: Option<string>)
      ensures if r.Some? then r.value in RankSlots(rank) && !TakenIn(taken, r.value) else AllTaken(byRank, taken, rank)
    {
      var names := RankSlots(rank);
      for i := 0 to |names|
        invariant forall j :: 0 <= j < i ==> TakenIn(taken, names[j])
      {
        if !TakenIn(taken, names[i]) {
          return Some(names[i]);
        }
      }
      return None;
    }

    method AllocateSlot(rank: nat, init: string -> real) returns (r: Option<string>)
      requires Valid()
      modifies this`infos, this`weights, this`grads, this`taken
      ensures Valid()
      ensures AnswersFor(byRank, old(taken), old(infos), rank, r)
      ensures r == None ==> Snap() == old(Snap()) && taken == old(taken)
      ensures r.Some? ==> taken == old(taken)[r.value := true] && r.value in infos && infos[r.value].rank == rank
      ensures r.Some? ==> Fresh(State(r.value), FreshWeights(layers, r.value, init))
      ensures r.Some? ==> OnlyTouches(old(Snap()), Snap(), layers, r.value)
    {
      r := FirstFree(rank);
      if r.Some? {
        RankSlotRegistered(byRank, infos, rank, r.value);
        taken := taken[r.value := true];
        assert Snap() == old(Snap());
        ResetAdapterSlot(r.value, init);
      }
    }

    method ReserveSlot(name: string, init: string -> real)
      requires Valid()
      modifies this`infos, this`weights, this`grads, this`taken
      ensures Valid()
      ensures taken == if name in infos then old(taken)[name := true] else old(taken)
      ensures name in infos ==> Fresh(State(name), FreshWeights(layers, name, init)) && infos[name].rank == old(infos)[name].rank
      ensures OnlyTouches(old(Snap()), Snap(), layers, name)
    {
      if name in infos {
        taken := taken[name := true];
        assert Snap() == old(Snap());
        ResetAdapterSlot(name, init);
      }
    }

    method ReleaseSlot(name: string, init: string -> real)
      requires Valid()
      modifies this`infos, this`weights, this`grads, this`taken
      ensures Valid()
      ensures taken == old(taken) - {name}
      ensures name in infos ==> Fresh(State(name), FreshWeights(layers, name, init)) && infos[name].rank == old(infos)[name].rank
      ensures OnlyTouches(old(Snap()), Snap(), layers, name)
    {
      ResetAdapterSlot(name, init);
      ghost var after := Snap();
      taken := taken - {name};
      assert Snap() == after;
    }

    // ---------- Training one slot ----------

    // PEFT makes exactly the active adapter's parameters trainable.
    method CreateOptimizer(name: string)
      requires name in infos && Select(params, name) == SlotParams(layers, name)
      modifies this`infos, this`active
      ensures infos == old(infos)[name := WithOptimizer(old(infos)[name], layers, name)]
      ensures active == if old(infos)[name].optimizer.Some? then old(active) else name
    {
      var info := infos[name];
      if info.optimizer.Some? {
        return;
      }
      active := name;
      infos := infos[name := info.(optimizer := Some(Optimizer(DEFAULT_HYPER, Select(params, active), map[])))];
    }

    // The gradients of a call are added to those still accumulated on the slot.
    method ForwardBackward(name: string, slope: string -> real, forwardOnly: bool)
      requires Valid() && name in infos
      modifies this`infos, this`active, this`grads
      ensures Valid()
      ensures infos == old(infos)[name := WithOptimizer(old(infos)[name], layers, name)]
      ensures if forwardOnly then grads == old(grads)
              else Accumulated(old(State(name)).grads, SlotParams(layers, name), slope, State(name).grads)
      ensures !forwardOnly ==> AddedTo(old(State(name)).grads, SlotParams(layers, name), slope, State(name).grads)
      ensures OnlyTouches(old(Snap()), Snap(), layers, name) && active == name
    {
      SlotOwnsParams(layers, slots, params, name);
      RunBackward(name, slope, forwardOnly);
      GradientsStayOnSlot(old(Snap()), Snap(), layers, slots, params, byRank, name, slope, forwardOnly);
      if !forwardOnly {
        AccumulatedSays(old(State(name)).grads, SlotParams(layers, name), slope, State(name).grads);
      }
    }

    method RunBackward(name: string, slope: string -> real, forwardOnly: bool)
      requires name in infos && Select(params, name) == SlotParams(layers, name)
      modifies this`infos, this`active, this`grads
      ensures infos == old(infos)[name := WithOptimizer(old(infos)[name], layers, name)]
      ensures if forwardOnly then grads == old(grads) else Adds(old(grads), SlotParams(layers, name), slope, grads)
      ensures active == name
    {
      active := name;
      CreateOptimizer(name);
      if !forwardOnly {
        grads := AddGradients(grads, Select(params, active), slope);
      }
    }

    // One step: set the hyper-parameters, clip this slot's gradients only, step, clear the gradients.
    method OptimStep(name: string, update: HyperUpdate, clip: Option<real>, adam: Adam, factor: ClipFactor) returns (stepCount: nat)
      requires Valid() && name in infos
      modifies this`infos, this`active, this`weights, this`grads
      ensures Valid()
      ensures SlotStep(old(State(name)), update, clip, adam, factor, layers, name, State(name))
      ensures AdamApplied(old(State(name)), State(name), update, clip, adam, factor)
      ensures stepCount == old(infos)[name].steps + 1
      ensures OnlyTouches(old(Snap()), Snap(), layers, name) && active == name
    {
      SlotOwnsParams(layers, slots, params, name);
      AdapterNamesPlain(name);
      SlotParamsDistinct(layers, name);
      ghost var clipped := StepSlot(name, update, clip, adam, factor);
      StepStaysOnSlot(old(Snap()), Snap(), layers, slots, params, byRank, name, clipped);
      StepSays(old(State(name)), State(name), update, clip, adam, factor, layers, name);
      stepCount := infos[name].steps;
    }

    method StepSlot(name: string, update: HyperUpdate, clip: Option<real>, adam: Adam, factor: ClipFactor)
      returns (ghost clipped: map<string, real>)
      requires name in infos && MembersOk(infos[name], layers, name)
      requires Select(params, name) == SlotParams(layers, name) && Distinct(SlotParams(layers, name))
      requires forall k :: k in SlotParams(layers, name) ==> k in weights && Mentions(k, name)
      modifies this`infos, this`active, this`weights, this`grads
      ensures name in infos && infos == old(infos)[name := infos[name]]
      ensures SlotInfoStep(old(infos)[name], infos[name], update, layers, name) && active == name
      ensures weights.Keys == old(weights).Keys && AgreeOff(old(weights), weights, name)
      ensures AgreeOff(old(grads), clipped, name) && clipped.Keys == old(grads).Keys
      ensures grads == clipped - set k | k in SlotParams(layers, name)
      ensures var opt := WithOptimizer(old(infos)[name], layers, name).optimizer.value;
              SteppedTo(Updated(opt.hyper, update), adam, |SlotParams(layers, name)|, OnSlot(old(weights), layers, name),
                        Clipped(OnSlot(old(grads), layers, name), clip, factor), opt.moments,
                        OnSlot(weights, layers, name), infos[name].optimizer.value.moments)
    {
      BeginStep(name, clip, factor);
      var opt := infos[name].optimizer.value;
      var h := Updated(opt.hyper, update);
      clipped := grads;
      var ms := AdamStep(name, h, opt.members, opt.moments, adam);
      grads := grads - set k | k in opt.members;
      infos := infos[name := infos[name].(optimizer := Some(Optimizer(h, opt.members, ms)), steps := infos[name].steps + 1)];
    }

    method BeginStep(name: string, clip: Option<real>, factor: ClipFactor)
      requires name in infos && MembersOk(infos[name], layers, name) && Select(params, name) == SlotParams(layers, name)
      requires forall k :: k in SlotParams(layers, name) ==> Mentions(k, name)
      modifies this`infos, this`active, this`grads
      ensures infos == old(infos)[name := WithOptimizer(old(infos)[name], layers, name)]
      ensures AgreeOff(old(grads), grads, name) && grads.Keys == old(grads).Keys
      ensures OnSlot(grads, layers, name) == Clipped(OnSlot(old(grads), layers, name), clip, factor) && active == name
    {
      active := name;
      CreateOptimizer(name);
      if clip.Some? && clip.value > 0.0 {
        ClipGrads(name, infos[name].optimizer.value.members, clip.value, factor);
      }
    }

    method ClipGrads(name: string, members: seq<string>, clip: real, factor: ClipFactor)
      requires members == SlotParams(layers, name) && clip > 0.0
      requires forall k :: k in members ==> Mentions(k, name)
      modifies this`grads
      ensures AgreeOff(old(grads), grads, name) && grads.Keys == old(grads).Keys
      ensures OnSlot(grads, layers, name) == Clipped(OnSlot(old(grads), layers, name), Some(clip), factor)
    {
      var all := grads;
      var gs := seq(|members|, i requires 0 <= i < |members| => Lookup(all, members[i]));
      assert gs == OnSlot(grads, layers, name);
      grads := ScaleGradients(grads, members, factor(gs, clip));
      ScaledOnSlot(old(grads), grads, layers, name, clip, factor);
      ScaledKeys(old(grads), grads, members, factor(gs, clip));
    }

    // torch.optim.AdamW.step(): parameters without a gradient are skipped.
    method AdamStep(name: string, h: Hyper, members: seq<string>, moments: map<nat, Moment>, adam: Adam) returns (ms: map<nat, Moment>)
      requires members == SlotParams(layers, name) && Distinct(members)
      requires forall k :: k in members ==> k in weights && Mentions(k, name)
      modifies this`weights
      ensures weights.Keys == old(weights).Keys && AgreeOff(old(weights), weights, name)
      ensures SteppedTo(h, adam, |members|, OnSlot(old(weights), layers, name), OnSlot(grads, layers, name), moments,
                        OnSlot(weights, layers, name), ms)
    {
      ms := moments;
      for i := 0 to |members|
        invariant weights.Keys == old(weights).Keys && AgreeOff(old(weights), weights, name)
        invariant SteppedTo(h, adam, i, OnSlot(old(weights), layers, name), OnSlot(grads, layers, name), moments,
                            OnSlot(weights, layers, name), ms)
      {
        ms := AdamOne(name, h, members, moments, adam, i, ms, old(weights));
      }
    }

    method AdamOne(name: string, h: Hyper, members: seq<string>, ghost moments: map<nat, Moment>, adam: Adam, i: nat, ms: map<nat, Moment>,
                   ghost before: map<string, real>)
      returns (ms': map<nat, Moment>)
      requires members == SlotParams(layers, name) && Distinct(members) && i < |members|
      requires members[i] in weights && Mentions(members[i], name)
      requires SteppedTo(h, adam, i, OnSlot(before, layers, name), OnSlot(grads, layers, name), moments, OnSlot(weights, layers, name), ms)
      modifies this`weights
      ensures weights.Keys == old(weights).Keys && AgreeOff(old(weights), weights, name)
      ensures SteppedTo(h, adam, i + 1, OnSlot(before, layers, name), OnSlot(grads, layers, name), moments, OnSlot(weights, layers, name), ms')
    {
      var k := members[i];
      ms' := ms;
      ghost var ws := OnSlot(weights, layers, name);
      assert ws[i] == OnSlot(before, layers, name)[i] && MomentAt(ms, i) == MomentAt(moments, i);
      if k in grads {
        var out := adam(h, MomentAt(ms, i), weights[k], grads[k]);
        UpdateOnSlot(weights, layers, name, i, out.weight);
        weights := weights[k := out.weight];
        ms' := ms[i := out.moment];
      }
      SteppedNext(h, adam, i, OnSlot(before, layers, name), OnSlot(grads, layers, name), moments, ws, ms, OnSlot(weights, layers, name), ms');
    }

    // ---------- Checkpoints ----------

    // there: the optimizer file that an earlier save has left at the path.
    method SaveCheckpoint(name: string, withOptimizer: bool, there: Option<SavedOptimizer>) returns (ck: Checkpoint)
      requires Valid() && name in infos
      modifies this`active
      ensures SavedAs(ck.state, CanonKeys(layers), State(name).weights)
      ensures ck.optimizer == OptimizerFile(infos[name], withOptimizer, there) && active == name
    {
      active := name;
      var state := CollectState(name);
      SlotKeys(layers, slots, params, name);
      CollectedIsSaved(weights, SlotParams(layers, name), CanonKeys(layers), params, name, state, OnSlot(weights, layers, name));
      var file := there;
      if withOptimizer && infos[name].optimizer.Some? {
        file := SavedOptimizerOf(infos[name]);
      }
      ck := Checkpoint(state, file);
    }

    method CollectState(name: string) returns (state: map<string, real>)
      requires Stored(params, weights, grads)
      ensures Collected(weights, params, name, state)
    {
      state := map[];
      assert params[..0] == [];
      for i := 0 to |params|
        invariant Collected(weights, params[..i], name, state)
      {
        var k := params[i];
        CollectStep(weights, params[..i], name, state, k);
        assert params[..i + 1] == params[..i] + [k];
        if Mentions(k, name) {
          state := state[Canonical(k) := weights[k]];
        }
      }
      assert params[..|params|] == params;
    }

    method CopyWeights(name: string, canon: map<string, real>) returns (matched: nat)
      requires Stored(params, weights, grads)
      modifies this`weights
      ensures Loading(old(weights), params, name, canon, weights)
      ensures matched == 0 <==> forall k :: k in params && Mentions(k, name) ==> Canonical(k) !in canon
    {
      matched := 0;
      ghost var before := weights;
      assert params[..0] == [];
      for i := 0 to |params|
        invariant Loading(before, params[..i], name, canon, weights)
        invariant matched == 0 <==> forall k :: k in params[..i] && Mentions(k, name) ==> Canonical(k) !in canon
      {
        var k := params[i];
        assert k in before;
        LoadStep(before, params[..i], name, canon, weights, k);
        assert params[..i + 1] == params[..i] + [k];
        if Mentions(k, name) && Canonical(k) in canon {
          matched := matched + 1;
          weights := weights[k := canon[Canonical(k)]];
        }
      }
      assert params[..|params|] == params;
    }

    // Weights come from whatever slot was saved; only the named slot changes.
    method LoadCheckpoint(name: string, ck: Checkpoint, modules: set<string>, parameters: set<string>, withOptimizer: bool)
      returns (r: LoadResult, ghost canon: map<string, real>)
      requires Valid() && name in infos
      modifies this`infos, this`active, this`weights
      ensures Valid() && OnlyTouches(old(Snap()), Snap(), layers, name)
      ensures IsCanonicalState(ck.state, {}, canon)
      ensures r.ModulesDiffer? <==> modules != targetModules
      ensures r.ParametersDiffer? <==> modules == targetModules && parameters != targetParameters
      ensures !r.Loaded? && !r.OptimizerSize? ==> Snap() == old(Snap())
      ensures |old(State(name)).weights| == |CanonKeys(layers)|
      ensures r.Loaded? || r.OptimizerSize? ==>
                State(name).weights == LoadedValues(old(State(name)).weights, CanonKeys(layers), canon) && State(name).grads == old(State(name)).grads
      ensures modules == targetModules && parameters == targetParameters ==>
                (r.NothingMatched? <==> forall i :: 0 <= i < |CanonKeys(layers)| ==> CanonKeys(layers)[i] !in canon)
      ensures r.OptimizerSize? ==> withOptimizer && ck.optimizer.Some? && ck.optimizer.value.size != |SlotParams(layers, name)|
      ensures r.Loaded? && withOptimizer && ck.optimizer.Some? ==> ck.optimizer.value.size == |SlotParams(layers, name)|
      ensures r.Loaded? && !(withOptimizer && ck.optimizer.Some?) ==> infos == old(infos)
      ensures r.Loaded? && withOptimizer && ck.optimizer.Some? ==> SavedOptimizerOf(infos[name]) == ck.optimizer && infos[name].steps == old(infos)[name].steps
      ensures r.Loaded? || r.OptimizerSize? ==>
                infos[name] == InfoLoaded(old(infos)[name], layers, name, if withOptimizer then ck.optimizer else None)
    {
      var canonical := CanonicalState(ck.state);
      canon := canonical;
      if modules != targetModules || parameters != targetParameters {
        SlotKeys(layers, slots, params, name);
        OnlyTouchesNothing(Snap(), layers, name);
        return if modules != targetModules then ModulesDiffer else ParametersDiffer, canon;
      }
      r := LoadValidated(name, ck, withOptimizer, canonical);
    }

    method LoadValidated(name: string, ck: Checkpoint, withOptimizer: bool, canon: map<string, real>) returns (r: LoadResult)
      requires Valid() && name in infos
      modifies this`infos, this`active, this`weights
      ensures Valid() && OnlyTouches(old(Snap()), Snap(), layers, name)
      ensures !r.ModulesDiffer? && !r.ParametersDiffer?
      ensures |old(State(name)).weights| == |CanonKeys(layers)|
      ensures State(name).weights == LoadedValues(old(State(name)).weights, CanonKeys(layers), canon) && State(name).grads == old(State(name)).grads
      ensures r.NothingMatched? <==> forall i :: 0 <= i < |CanonKeys(layers)| ==> CanonKeys(layers)[i] !in canon
      ensures r.NothingMatched? ==> Snap() == old(Snap())
      ensures r.OptimizerSize? <==> !r.NothingMatched? && withOptimizer && ck.optimizer.Some? && ck.optimizer.value.size != |SlotParams(layers, name)|
      ensures r.Loaded? && !(withOptimizer && ck.optimizer.Some?) ==> infos == old(infos)
      ensures r.Loaded? && withOptimizer && ck.optimizer.Some? ==> SavedOptimizerOf(infos[name]) == ck.optimizer && infos[name].steps == old(infos)[name].steps
      ensures r.Loaded? || r.OptimizerSize? ==>
                infos[name] == InfoLoaded(old(infos)[name], layers, name, if withOptimizer then ck.optimizer else None)
    {
      SlotOwnsParams(layers, slots, params, name);
      r := LoadMatching(name, ck, withOptimizer, canon);
      LoadStaysOnSlot(old(Snap()), Snap(), layers, slots, params, byRank, name, canon);
    }

    // Copy the matching weights, then the optimizer if the checkpoint has one.
    method LoadMatching(name: string, ck: Checkpoint, withOptimizer: bool, canon: map<string, real>) returns (r: LoadResult)
      requires name in infos && MembersOk(infos[name], layers, name) && Select(params, name) == SlotParams(layers, name)
      requires Stored(params, weights, grads)
      modifies this`infos, this`active, this`weights
      ensures Loading(old(weights), params, name, canon, weights)
      ensures r.NothingMatched? <==> forall k :: k in params && Mentions(k, name) ==> Canonical(k) !in canon
      ensures !r.ModulesDiffer? && !r.ParametersDiffer?
      ensures r.OptimizerSize? <==> !r.NothingMatched? && withOptimizer && ck.optimizer.Some? && ck.optimizer.value.size != |SlotParams(layers, name)|
      ensures r.NothingMatched? || (r.Loaded? && !(withOptimizer && ck.optimizer.Some?)) ==> infos == old(infos)
      ensures name in infos && infos == old(infos)[name := infos[name]]
      ensures infos[name].rank == old(infos)[name].rank && infos[name].steps == old(infos)[name].steps && MembersOk(infos[name], layers, name)
      ensures r.Loaded? && withOptimizer && ck.optimizer.Some? ==> SavedOptimizerOf(infos[name]) == ck.optimizer
      ensures r.Loaded? || r.OptimizerSize? ==>
                infos[name] == InfoLoaded(old(infos)[name], layers, name, if withOptimizer then ck.optimizer else None)
    {
      active := name;
      assert infos == infos[name := infos[name]];
      var matched := CopyWeights(name, canon);
      if matched == 0 {
        return NothingMatched;
      }
      if withOptimizer && ck.optimizer.Some? {
        var ok := RestoreOptimizer(name, ck.optimizer.value);
        if !ok {
          return OptimizerSize;
        }
      }
      r := Loaded;
    }

    // load_state_dict refuses parameter groups of another size.
    method RestoreOptimizer(name: string, saved: SavedOptimizer) returns (ok: bool)
      requires name in infos && MembersOk(infos[name], layers, name) && Select(params, name) == SlotParams(layers, name)
      modifies this`infos, this`active
      ensures ok <==> saved.size == |SlotParams(layers, name)|
      ensures name in infos && infos == old(infos)[name := infos[name]]
      ensures infos[name].rank == old(infos)[name].rank && infos[name].steps == old(infos)[name].steps && MembersOk(infos[name], layers, name)
      ensures ok ==> SavedOptimizerOf(infos[name]) == Some(saved)
      ensures infos[name] == InfoLoaded(old(infos)[name], layers, name, Some(saved))
    {
      CreateOptimizer(name);
      var members := infos[name].optimizer.value.members;
      ok := saved.size == |members|;
      if ok {
        infos := infos[name := infos[name].(optimizer := Some(Optimizer(saved.hyper, members, saved.moments)))];
      }
    }
  }

  // ---------- One optimizer step ----------

  lemma UpdateOnSlot(m: map<string, real>, layers: seq<string>, slot: string, i: nat, x: real)
    requires Distinct(SlotParams(layers, slot)) && i < |SlotParams(layers, slot)|
    ensures OnSlot(m[SlotParams(layers, slot)[i] := x], layers, slot) == OnSlot(m, layers, slot)[i := Some(x)]
  {
  }

  lemma SteppedNext(h: Hyper, adam: Adam, n: nat, ws: seq<Option<real>>, gs: seq<Option<real>>, ms: map<nat, Moment>,
                    ws': seq<Option<real>>, ms': map<nat, Moment>, ws'': seq<Option<real>>, ms'': map<nat, Moment>)
    requires n < |ws| && SteppedTo(h, adam, n, ws, gs, ms, ws', ms')
    requires ws'' == ws'[n := StepAt(h, adam, MomentAt(ms, n), ws[n], gs[n]).0]
    requires forall i: nat :: MomentAt(ms'', i) == if i == n then StepAt(h, adam, MomentAt(ms, n), ws[n], gs[n]).1 else MomentAt(ms', i)
    ensures SteppedTo(h, adam, n + 1, ws, gs, ms, ws'', ms'')
  {
  }

  ghost predicate Scales(grads: map<string, real>, members: seq<string>, c: real, grads': map<string, real>) {
    forall k :: Lookup(grads', k) == if k in grads then Some(if k in members then Times(c, grads[k]) else grads[k]) else None
  }

  function ScaleGradients(grads: map<string, real>, members: seq<string>, c: real): (grads': map<string, real>)
    ensures Scales(grads, members, c, grads')
  {
    map k | k in grads :: if k in members then Times(c, grads[k]) else grads[k]
  }

  lemma ScaledOnSlot(grads: map<string, real>, grads': map<string, real>, layers: seq<string>, name: string, clip: real, factor: ClipFactor)
    requires clip > 0.0 && forall k :: k in SlotParams(layers, name) ==> Mentions(k, name)
    requires Scales(grads, SlotParams(layers, name), factor(OnSlot(grads, layers, name), clip), grads')
    ensures AgreeOff(grads, grads', name)
    ensures OnSlot(grads', layers, name) == Clipped(OnSlot(grads, layers, name), Some(clip), factor)
  {
    var gs := OnSlot(grads, layers, name);
    var c := factor(gs, clip);
    forall i | 0 <= i < |gs|
      ensures OnSlot(grads', layers, name)[i] == if gs[i].Some? then Some(Times(c, gs[i].value)) else None
    {
      assert SlotParams(layers, name)[i] in SlotParams(layers, name);
    }
  }

  lemma ScaledKeys(grads: map<string, real>, grads': map<string, real>, members: seq<string>, c: real)
    requires Scales(grads, members, c, grads')
    ensures grads'.Keys == grads.Keys
  {
    forall k
      ensures k in grads' <==> k in grads
    {
      assert Lookup(grads', k).Some? <==> k in grads';
    }
  }

  ghost predicate SlotInfoStep(info: AdapterInfo, info': AdapterInfo, u: HyperUpdate, layers: seq<string>, name: string) {
    && info'.optimizer.Some? && info'.rank == info.rank && info'.steps == info.steps + 1
    && info'.optimizer.value.members == SlotParams(layers, name)
    && info'.optimizer.value.hyper == Updated(WithOptimizer(info, layers, name).optimizer.value.hyper, u)
  }

  // What one step does to a slot, in terms of that slot alone.
  ghost predicate SlotStep(s: SlotState, u: HyperUpdate, clip: Option<real>, adam: Adam, factor: ClipFactor,
                           layers: seq<string>, name: string, s': SlotState) {
    var opt := WithOptimizer(s.info, layers, name).optimizer.value;
    var h := Updated(opt.hyper, u);
    && SlotInfoStep(s.info, s'.info, u, layers, name)
    && |s.grads| == |s.weights|
    && SteppedTo(h, adam, |s.weights|, s.weights, Clipped(s.grads, clip, factor), opt.moments, s'.weights, s'.info.optimizer.value.moments)
    && |s'.grads| == |s.grads| && forall i :: 0 <= i < |s'.grads| ==> s'.grads[i] == None
  }

  // The step, number by number: every given hyper-parameter is taken over, every gradient is
  // clipped and then moves its own weight and moment, and all gradients are gone.
  ghost predicate AdamApplied(s: SlotState, s': SlotState, update: HyperUpdate, clip: Option<real>, adam: Adam, factor: ClipFactor) {
    var h0 := if s.info.optimizer.Some? then s.info.optimizer.value.hyper else Hyper(0.0001, 0.01, (0.9, 0.999), 0.00000001);
    var ms := if s.info.optimizer.Some? then s.info.optimizer.value.moments else map[];
    && s'.info.optimizer.Some? && |s'.weights| == |s.weights| && |s'.grads| == |s.grads| == |s.weights|
    && var h, ms' := s'.info.optimizer.value.hyper, s'.info.optimizer.value.moments;
    && h.lr == (if update.lr.Some? then update.lr.value else h0.lr)
    && h.weightDecay == (if update.weightDecay.Some? then update.weightDecay.value else h0.weightDecay)
    && h.betas == (if update.betas.Some? then update.betas.value else h0.betas)
    && h.eps == (if update.eps.Some? then update.eps.value else h0.eps)
    && forall i :: 0 <= i < |s.weights| ==>
                     && s'.grads[i] == None
                     && if s.weights[i].Some? && s.grads[i].Some? then
                          var g := if clip.Some? && clip.value > 0.0 then factor(s.grads, clip.value) * s.grads[i].value else s.grads[i].value;
                          var out := adam(h, if i in ms then Some(ms[i]) else None, s.weights[i].value, g);
                          s'.weights[i] == Some(out.weight) && i in ms' && ms'[i] == out.moment
                        else
                          s'.weights[i] == s.weights[i] && (i in ms' <==> i in ms) && (i in ms ==> ms'[i] == ms[i])
  }

  lemma StepSays(s: SlotState, s': SlotState, update: HyperUpdate, clip: Option<real>, adam: Adam, factor: ClipFactor,
                 layers: seq<string>, name: string)
    requires SlotStep(s, update, clip, adam, factor, layers, name, s')
    ensures AdamApplied(s, s', update, clip, adam, factor)
  {
    var opt := WithOptimizer(s.info, layers, name).optimizer.value;
    var h, gs, ms' := Updated(opt.hyper, update), Clipped(s.grads, clip, factor), s'.info.optimizer.value.moments;
    forall i | 0 <= i < |s.weights|
      ensures s'.weights[i] == StepAt(h, adam, MomentAt(opt.moments, i), s.weights[i], gs[i]).0
      ensures MomentAt(ms', i) == StepAt(h, adam, MomentAt(opt.moments, i), s.weights[i], gs[i]).1
    {
    }
  }

  // A redrawn slot, parameter by parameter.
  lemma FreshWeightsSay(layers: seq<string>, slot: string, init: string -> real, j: nat)
    requires j < |layers|
    ensures |FreshWeights(layers, slot, init)| == 2 * |layers|
    ensures FreshWeights(layers, slot, init)[2 * j] == Some(init(layers[j] + ".lora_A." + slot + ".weight"))
    ensures FreshWeights(layers, slot, init)[2 * j + 1] == Some(0.0)
  {
    SlotParamAt(layers, slot);
    assert LoraName(layers[j], A, slot) == layers[j] + ".lora_A." + slot + ".weight";
  }

  lemma StepStaysOnSlot(p: Pool, p': Pool, layers: seq<string>, slots: seq<string>, params: seq<string>, byRank: map<nat, seq<string>>,
                        name: string, g: map<string, real>)
    requires Geometry(layers, slots, params) && Stored(params, p.weights, p.grads) && Registered(layers, slots, p.infos) && Ranked(byRank, p.infos)
    requires name in p.infos && p'.weights.Keys == p.weights.Keys && AgreeOff(p.weights, p'.weights, name)
    requires name in p'.infos && p'.infos == p.infos[name := p'.infos[name]]
    requires p'.infos[name].rank == p.infos[name].rank && MembersOk(p'.infos[name], layers, name)
    requires AgreeOff(p.grads, g, name) && g.Keys == p.grads.Keys
    requires p'.grads == g - set k | k in SlotParams(layers, name)
    ensures Stored(params, p'.weights, p'.grads) && Registered(layers, slots, p'.infos) && Ranked(byRank, p'.infos)
    ensures OnlyTouches(p, p', layers, name)
    ensures forall i :: 0 <= i < |SlotParams(layers, name)| ==> OnSlot(p'.grads, layers, name)[i] == None
  {
    SlotOwnsParams(layers, slots, params, name);
    ZeroedAgrees(p.grads, g, p'.grads, layers, name);
    SlotUpdateKeepsPool(p, p', layers, slots, params, byRank, name);
  }

  lemma ZeroedAgrees(before: map<string, real>, g: map<string, real>, g': map<string, real>, layers: seq<string>, name: string)
    requires forall k :: k in SlotParams(layers, name) ==> Mentions(k, name)
    requires AgreeOff(before, g, name) && g' == g - set k | k in SlotParams(layers, name)
    ensures AgreeOff(before, g', name)
    ensures forall i :: 0 <= i < |SlotParams(layers, name)| ==> OnSlot(g', layers, name)[i] == None
  {
    forall k | !Mentions(k, name)
      ensures Lookup(before, k) == Lookup(g', k)
    {
      assert Lookup(before, k) == Lookup(g, k);
    }
  }

  lemma GradientsStayOnSlot(p: Pool, p': Pool, layers: seq<string>, slots: seq<string>, params: seq<string>, byRank: map<nat, seq<string>>,
                            name: string, slope: string -> real, forwardOnly: bool)
    requires Geometry(layers, slots, params) && Stored(params, p.weights, p.grads) && Registered(layers, slots, p.infos) && Ranked(byRank, p.infos)
    requires name in p.infos && p'.weights == p.weights
    requires p'.infos == p.infos[name := WithOptimizer(p.infos[name], layers, name)]
    requires if forwardOnly then p'.grads == p.grads else Adds(p.grads, SlotParams(layers, name), slope, p'.grads)
    ensures Stored(params, p'.weights, p'.grads) && Registered(layers, slots, p'.infos) && Ranked(byRank, p'.infos)
    ensures OnlyTouches(p, p', layers, name)
    ensures !forwardOnly ==> Accumulated(OnSlot(p.grads, layers, name), SlotParams(layers, name), slope, OnSlot(p'.grads, layers, name))
  {
    SlotOwnsParams(layers, slots, params, name);
    if !forwardOnly {
      AddedOnSlot(p.grads, p'.grads, layers, name, slope);
      AddedKeys(p.grads, p'.grads, SlotParams(layers, name), slope);
    }
    SlotUpdateKeepsPool(p, p', layers, slots, params, byRank, name);
  }

  lemma AddedOnSlot(grads: map<string, real>, grads': map<string, real>, layers: seq<string>, name: string, slope: string -> real)
    requires forall k :: k in SlotParams(layers, name) ==> Mentions(k, name)
    requires Adds(grads, SlotParams(layers, name), slope, grads')
    ensures AgreeOff(grads, grads', name)
    ensures Accumulated(OnSlot(grads, layers, name), SlotParams(layers, name), slope, OnSlot(grads', layers, name))
  {
  }

  lemma AddedKeys(grads: map<string, real>, grads': map<string, real>, members: seq<string>, slope: string -> real)
    requires Adds(grads, members, slope, grads')
    ensures forall k :: k in grads' ==> k in grads || k in members
  {
    forall k | k in grads'
      ensures k in grads || k in members
    {
      assert Lookup(grads', k).Some?;
    }
  }

  ghost predicate Adds(grads: map<string, real>, members: seq<string>, slope: string -> real, grads': map<string, real>) {
    forall k :: Lookup(grads', k) == if k in members then Some(OrZero(Lookup(grads, k)) + slope(k)) else Lookup(grads, k)
  }

  function OrZero(x: Option<real>): real {
    if x.Some? then x.value else 0.0
  }

  function AddGradients(grads: map<string, real>, members: seq<string>, slope: string -> real): (grads': map<string, real>)
    ensures Adds(grads, members, slope, grads')
  {
    map k | k in grads.Keys + (set k | k in members) ::
      if k in members then OrZero(Lookup(grads, k)) + slope(k) else grads[k]
  }

  ghost predicate Accumulated(before: seq<Option<real>>, names: seq<string>, slope: string -> real, after: seq<Option<real>>) {
    && |before| == |names| == |after|
    && forall i :: 0 <= i < |names| ==>
                     after[i] == Some(OrZero(before[i]) + slope(names[i]))
  }

  // A first gradient is taken as it is, a further one is added.
  ghost predicate AddedTo(before: seq<Option<real>>, names: seq<string>, slope: string -> real, after: seq<Option<real>>) {
    && |before| == |names| == |after|
    && forall i :: 0 <= i < |names| ==>
                     after[i] == Some(if before[i].Some? then before[i].value + slope(names[i]) else slope(names[i]))
  }

  lemma AccumulatedSays(before: seq<Option<real>>, names: seq<string>, slope: string -> real, after: seq<Option<real>>)
    requires Accumulated(before, names, slope, after)
    ensures AddedTo(before, names, slope, after)
  {
  }

  // ---------- Checkpoints ----------

  // load_state_dict restores hyper-parameters and moments by position.
  datatype SavedOptimizer = SavedOptimizer(hyper: Hyper, moments: map<nat, Moment>, size: nat)

  datatype Checkpoint = Checkpoint(state: map<string, real>, optimizer: Option<SavedOptimizer>)

  datatype LoadResult = Loaded | ModulesDiffer | ParametersDiffer | NothingMatched | OptimizerSize

  // The slot-independent keys of a slot's parameters, by position.
  function CanonKeys(layers: seq<string>): seq<string> {
    if layers == [] then []
    else
      var n := |layers| - 1;
      CanonKeys(layers[..n]) + [CanonKey(layers[n], A), CanonKey(layers[n], B)]
  }

  function CanonKey(layer: string, h: Half): string {
    layer + "." + HalfName(h) + "." + "weight"
  }

  // The saved dictionary holds exactly the slot's values, under slot-independent keys.
  ghost predicate SavedAs(state: map<string, real>, keys: seq<string>, ws: seq<Option<real>>) {
    && |ws| == |keys|
    && (forall i :: 0 <= i < |ws| ==> Lookup(state, keys[i]) == ws[i])
    && (forall k :: k in state ==> k in keys)
  }

  lemma {:induction false} CanonKeyAt(layers: seq<string>)
    ensures |CanonKeys(layers)| == 2 * |layers|
    ensures forall i :: 0 <= i < 2 * |layers| ==>
                          CanonKeys(layers)[i] == CanonKey(layers[i / 2], HalfAt(i))
  {
    if layers != [] {
      var n := |layers| - 1;
      var most := CanonKeys(layers[..n]);
      var a, b := CanonKey(layers[n], A), CanonKey(layers[n], B);
      CanonKeyAt(layers[..n]);
      assert CanonKeys(layers) == most + [a, b];
      forall i | 0 <= i < 2 * |layers|
        ensures (most + [a, b])[i] == CanonKey(layers[i / 2], HalfAt(i))
      {
        if i < 2 * n {
          assert layers[..n][i / 2] == layers[i / 2];
        }
      }
    }
  }

  lemma CanonOfParams(layers: seq<string>, name: string)
    requires IsAdapterName(name)
    ensures |SlotParams(layers, name)| == |CanonKeys(layers)|
    ensures forall i :: 0 <= i < |CanonKeys(layers)| ==> Canonical(SlotParams(layers, name)[i]) == CanonKeys(layers)[i]
  {
    AdapterNamesPlain(name);
    SlotParamAt(layers, name);
    CanonKeyAt(layers);
    forall i | 0 <= i < 2 * |layers|
      ensures Canonical(SlotParams(layers, name)[i]) == CanonKeys(layers)[i]
    {
      CanonicalLora(layers[i / 2], HalfAt(i), name);
    }
  }

  lemma CanonKeysDistinct(layers: seq<string>)
    requires Distinct(layers)
    ensures Distinct(CanonKeys(layers))
  {
    CanonKeyAt(layers);
    AdapterNamePlain(0, 0);
    var slot := AdapterName(0, 0);
    forall i, j | 0 <= i < j < 2 * |layers|
      ensures CanonKeys(layers)[i] != CanonKeys(layers)[j]
    {
      CanonicalLora(layers[i / 2], HalfAt(i), slot);
      CanonicalLora(layers[j / 2], HalfAt(j), slot);
      if CanonKeys(layers)[i] == CanonKeys(layers)[j] {
        CanonicalInjectivePerSlot(layers[i / 2], HalfAt(i), layers[j / 2], HalfAt(j), slot);
        assert false;
      }
    }
  }

  lemma CanonKeysFixed(layers: seq<string>)
    requires CleanAll(layers)
    ensures forall i :: 0 <= i < |CanonKeys(layers)| ==> Canonical(CanonKeys(layers)[i]) == CanonKeys(layers)[i]
  {
    CanonKeyAt(layers);
    forall i | 0 <= i < 2 * |layers|
      ensures Canonical(CanonKeys(layers)[i]) == CanonKeys(layers)[i]
    {
      CanonFixed(layers[i / 2], HalfAt(i));
    }
  }

  lemma CanonFixed(layer: string, h: Half)
    requires Clean(layer)
    ensures Canonical(CanonKey(layer, h)) == CanonKey(layer, h)
  {
    AdapterNamePlain(0, 0);
    var slot := AdapterName(0, 0);
    var key := LoraName(layer, h, slot);
    CanonicalLora(layer, h, slot);
    CanonicalIdempotentExactlyUnlessDoubled(key);
    LoraParts(layer, h, slot);
    assert key[|key| - 1] == "weight"[5];
  }

  // The dictionary save_checkpoint has built once the parameters in `seen` have been visited.
  ghost predicate Collected(weights: map<string, real>, seen: seq<string>, name: string, state: map<string, real>) {
    && (forall k :: k in seen && Mentions(k, name) ==> Canonical(k) in state)
    && (forall c :: c in state ==> exists k :: k in seen && Mentions(k, name) && Canonical(k) == c && Lookup(weights, k) == Some(state[c]))
  }

  lemma CollectStep(weights: map<string, real>, seen: seq<string>, name: string, state: map<string, real>, k: string)
    requires Collected(weights, seen, name, state) && k in weights
    ensures Collected(weights, seen + [k], name, if Mentions(k, name) then state[Canonical(k) := weights[k]] else state)
  {
    var next := if Mentions(k, name) then state[Canonical(k) := weights[k]] else state;
    var longer := seen + [k];
    forall c | c in next
      ensures exists k' :: k' in longer && Mentions(k', name) && Canonical(k') == c && Lookup(weights, k') == Some(next[c])
    {
      if Mentions(k, name) && c == Canonical(k) {
        assert k in longer;
      } else {
        var k' :| k' in seen && Mentions(k', name) && Canonical(k') == c && Lookup(weights, k') == Some(state[c]);
        assert k' in longer;
      }
    }
  }

  lemma CollectedIsSaved(weights: map<string, real>, names: seq<string>, keys: seq<string>, params: seq<string>, name: string,
                         state: map<string, real>, ws: seq<Option<real>>)
    requires Collected(weights, params, name, state)
    requires forall k :: k in names <==> k in params && Mentions(k, name)
    requires |names| == |keys| == |ws| && Distinct(keys)
    requires forall i :: 0 <= i < |keys| ==> Canonical(names[i]) == keys[i] && ws[i] == Lookup(weights, names[i])
    ensures SavedAs(state, keys, ws)
  {
    forall c | c in state
      ensures exists i :: 0 <= i < |keys| && c == keys[i] && Some(state[c]) == ws[i]
    {
      var k :| k in params && Mentions(k, name) && Canonical(k) == c && Lookup(weights, k) == Some(state[c]);
      var i :| 0 <= i < |names| && names[i] == k;
      assert c == keys[i];
    }
    forall i | 0 <= i < |ws|
      ensures Lookup(state, keys[i]) == ws[i]
    {
      assert names[i] in params && Mentions(names[i], name);
      var c := keys[i];
      var j :| 0 <= j < |keys| && c == keys[j] && Some(state[c]) == ws[j];
      assert i == j;
    }
  }

  // {_canonical_lora_key(k): v for k, v in state.items()}; which of several clashing keys wins is left open.
  ghost predicate IsCanonicalState(state: map<string, real>, left: set<string>, canon: map<string, real>) {
    && (forall k :: k in state && k !in left ==> Canonical(k) in canon)
    && (forall c :: c in canon ==> exists k :: k in state && Canonical(k) == c && canon[c] == state[k])
  }

  method CanonicalState(state: map<string, real>) returns (canon: map<string, real>)
    ensures IsCanonicalState(state, {}, canon)
  {
    canon := map[];
    var left := state.Keys;
    while left != {}
      invariant left <= state.Keys && IsCanonicalState(state, left, canon)
      decreases |left|
    {
      var k :| k in left;
      CanonicalStep(state, left, canon, k);
      left := left - {k};
      canon := canon[Canonical(k) := state[k]];
    }
  }

  lemma CanonicalStep(state: map<string, real>, left: set<string>, canon: map<string, real>, k: string)
    requires IsCanonicalState(state, left, canon) && k in left && k in state
    ensures IsCanonicalState(state, left - {k}, canon[Canonical(k) := state[k]])
  {
    var next := canon[Canonical(k) := state[k]];
    forall c | c in next
      ensures exists k' :: k' in state && Canonical(k') == c && next[c] == state[k']
    {
      if c != Canonical(k) {
        var k' :| k' in state && Canonical(k') == c && canon[c] == state[k'];
        assert next[c] == state[k'];
      }
    }
  }

  lemma CanonicalOfSaved(keys: seq<string>, state: map<string, real>, canon: map<string, real>, ws: seq<Option<real>>)
    requires forall i :: 0 <= i < |keys| ==> Canonical(keys[i]) == keys[i]
    requires SavedAs(state, keys, ws) && IsCanonicalState(state, {}, canon)
    ensures SavedAs(canon, keys, ws)
  {
    forall k | k in state
      ensures Canonical(k) == k
    {
      var i :| 0 <= i < |keys| && k == keys[i];
    }
    forall i | 0 <= i < |ws|
      ensures Lookup(canon, keys[i]) == ws[i]
    {
      assert Lookup(state, keys[i]) == ws[i];
    }
  }

  // The slot's weights after the matching keys have been copied in.
  function LoadedValues(ws: seq<Option<real>>, keys: seq<string>, canon: map<string, real>): seq<Option<real>>
    requires |ws| == |keys|
  {
    seq(|ws|, i requires 0 <= i < |ws| => if keys[i] in canon then Some(canon[keys[i]]) else ws[i])
  }

  // Loading what any slot of the same geometry saved restores exactly the saved weights.
  lemma LoadRestoresSaved(layers: seq<string>, state: map<string, real>, canon: map<string, real>, saved: seq<Option<real>>, ws: seq<Option<real>>)
    requires CleanAll(layers) && SavedAs(state, CanonKeys(layers), saved) && IsCanonicalState(state, {}, canon) && |ws| == |saved|
    requires forall i :: 0 <= i < |saved| ==> saved[i].Some?
    ensures LoadedValues(ws, CanonKeys(layers), canon) == saved
    ensures forall i :: 0 <= i < |saved| ==> CanonKeys(layers)[i] in canon
  {
    var keys := CanonKeys(layers);
    CanonKeysFixed(layers);
    CanonicalOfSaved(keys, state, canon, saved);
    forall i | 0 <= i < |saved|
      ensures keys[i] in canon && LoadedValues(ws, keys, canon)[i] == saved[i]
    {
      assert Lookup(canon, keys[i]) == saved[i];
    }
  }

  ghost predicate Loading(before: map<string, real>, seen: seq<string>, name: string, canon: map<string, real>, now: map<string, real>) {
    forall k :: Lookup(now, k) ==
                if k in before && k in seen && Mentions(k, name) && Canonical(k) in canon then Some(canon[Canonical(k)])
                else Lookup(before, k)
  }

  lemma LoadedOnSlot(before: map<string, real>, w: map<string, real>, names: seq<string>, keys: seq<string>, params: seq<string>,
                     layers: seq<string>, name: string, canon: map<string, real>)
    requires Loading(before, params, name, canon, w) && names == SlotParams(layers, name)
    requires forall k :: k in names <==> k in params && Mentions(k, name)
    requires forall k :: k in before <==> k in params
    requires |names| == |keys| && forall i :: 0 <= i < |keys| ==> Canonical(names[i]) == keys[i]
    ensures AgreeOff(before, w, name)
    ensures OnSlot(w, layers, name) == LoadedValues(OnSlot(before, layers, name), keys, canon)
  {
    forall i | 0 <= i < |names|
      ensures Lookup(w, names[i]) == if keys[i] in canon then Some(canon[keys[i]]) else Lookup(before, names[i])
    {
      assert names[i] in names;
    }
  }

  lemma LoadStep(before: map<string, real>, seen: seq<string>, name: string, canon: map<string, real>, now: map<string, real>, k: string)
    requires Loading(before, seen, name, canon, now) && k in before
    ensures Loading(before, seen + [k], name, canon, if Mentions(k, name) && Canonical(k) in canon then now[k := canon[Canonical(k)]] else now)
  {
  }

  // What a load makes of a slot's info; a file of another size is refused after the optimizer is there.
  function InfoLoaded(info: AdapterInfo, layers: seq<string>, name: string, file: Option<SavedOptimizer>): AdapterInfo {
    if file == None then info
    else if file.value.size != |SlotParams(layers, name)| then WithOptimizer(info, layers, name)
    else info.(optimizer := Some(Optimizer(file.value.hyper, SlotParams(layers, name), file.value.moments)))
  }

  // The optimizer file at the path after a save: only an optimizer that is saved replaces it.
  function OptimizerFile(info: AdapterInfo, withOptimizer: bool, there: Option<SavedOptimizer>): Option<SavedOptimizer> {
    if withOptimizer && info.optimizer.Some? then SavedOptimizerOf(info) else there
  }

  function SavedOptimizerOf(info: AdapterInfo): Option<SavedOptimizer> {
    if info.optimizer.Some? then
      var o := info.optimizer.value;
      Some(SavedOptimizer(o.hyper, o.moments, |o.members|))
    else None
  }

  // Positions, parameter names and checkpoint keys of a registered slot line up.
  lemma SlotKeys(layers: seq<string>, slots: seq<string>, params: seq<string>, name: string)
    requires Geometry(layers, slots, params) && name in slots
    ensures forall k :: k in SlotParams(layers, name) <==> k in params && Mentions(k, name)
    ensures |SlotParams(layers, name)| == |CanonKeys(layers)| && Distinct(CanonKeys(layers))
    ensures forall i :: 0 <= i < |CanonKeys(layers)| ==> Canonical(SlotParams(layers, name)[i]) == CanonKeys(layers)[i]
  {
    SlotOwnsParams(layers, slots, params, name);
    SelectMembers(params, name);
    CanonOfParams(layers, name);
    CanonKeysDistinct(layers);
  }

  lemma LoadStaysOnSlot(p: Pool, p': Pool, layers: seq<string>, slots: seq<string>, params: seq<string>, byRank: map<nat, seq<string>>,
                        name: string, canon: map<string, real>)
    requires Geometry(layers, slots, params) && Stored(params, p.weights, p.grads) && Registered(layers, slots, p.infos) && Ranked(byRank, p.infos)
    requires name in p.infos && name in p'.infos && p'.infos == p.infos[name := p'.infos[name]]
    requires p'.infos[name].rank == p.infos[name].rank && MembersOk(p'.infos[name], layers, name)
    requires Loading(p.weights, params, name, canon, p'.weights) && p'.grads == p.grads
    ensures Stored(params, p'.weights, p'.grads) && Registered(layers, slots, p'.infos) && Ranked(byRank, p'.infos)
    ensures OnlyTouches(p, p', layers, name)
    ensures |OnSlot(p.weights, layers, name)| == |CanonKeys(layers)|
    ensures OnSlot(p'.weights, layers, name) == LoadedValues(OnSlot(p.weights, layers, name), CanonKeys(layers), canon)
    ensures (forall k :: k in params && Mentions(k, name) ==> Canonical(k) !in canon)
              <==> forall i :: 0 <= i < |CanonKeys(layers)| ==> CanonKeys(layers)[i] !in canon
    ensures (forall k :: k in params && Mentions(k, name) ==> Canonical(k) !in canon) ==> p'.weights == p.weights
  {
    SlotKeys(layers, slots, params, name);
    LoadedOnSlot(p.weights, p'.weights, SlotParams(layers, name), CanonKeys(layers), params, layers, name, canon);
    LoadedKeys(p.weights, p'.weights, params, name, canon);
    NothingMatches(SlotParams(layers, name), CanonKeys(layers), params, name, canon);
    SlotUpdateKeepsPool(p, p', layers, slots, params, byRank, name);
    NothingLoaded(p.weights, p'.weights, params, name, canon);
  }

  lemma NothingLoaded(before: map<string, real>, w: map<string, real>, params: seq<string>, name: string, canon: map<string, real>)
    requires Loading(before, params, name, canon, w)
    ensures (forall k :: k in params && Mentions(k, name) ==> Canonical(k) !in canon) ==> w == before
  {
    LoadedKeys(before, w, params, name, canon);
    if forall k :: k in params && Mentions(k, name) ==> Canonical(k) !in canon {
      forall k | k in before
        ensures w[k] == before[k]
      {
        assert Lookup(w, k) == Lookup(before, k);
      }
    }
  }

  lemma OnlyTouchesNothing(p: Pool, layers: seq<string>, name: string)
    ensures OnlyTouches(p, p, layers, name)
  {
  }

  lemma LoadedKeys(before: map<string, real>, w: map<string, real>, seen: seq<string>, name: string, canon: map<string, real>)
    requires Loading(before, seen, name, canon, w)
    ensures w.Keys == before.Keys
  {
    forall k
      ensures k in w <==> k in before
    {
      assert Lookup(w, k).Some? <==> k in w;
    }
  }

  // No parameter matches exactly when no position's key occurs in the checkpoint.
  lemma NothingMatches(names: seq<string>, keys: seq<string>, params: seq<string>, name: string, canon: map<string, real>)
    requires forall k :: k in names <==> k in params && Mentions(k, name)
    requires |names| == |keys| && forall i :: 0 <= i < |keys| ==> Canonical(names[i]) == keys[i]
    ensures (forall k :: k in params && Mentions(k, name) ==> Canonical(k) !in canon) <==> forall i :: 0 <= i < |keys| ==> keys[i] !in canon
  {
    if forall i :: 0 <= i < |keys| ==> keys[i] !in canon {
      forall k | k in params && Mentions(k, name)
        ensures Canonical(k) !in canon
      {
        var i :| 0 <= i < |names| && names[i] == k;
        assert keys[i] !in canon;
      }
    }
    if forall k :: k in params && Mentions(k, name) ==> Canonical(k) !in canon {
      forall i | 0 <= i < |keys|
        ensures keys[i] !in canon
      {
        assert names[i] in params && Mentions(names[i], name);
      }
    }
  }

  // Replacing one slot's info and its own weights and gradients.
  lemma SlotUpdateKeepsPool(p: Pool, p': Pool, layers: seq<string>, slots: seq<string>, params: seq<string>, byRank: map<nat, seq<string>>, name: string)
    requires Geometry(layers, slots, params) && Stored(params, p.weights, p.grads) && Registered(layers, slots, p.infos) && Ranked(byRank, p.infos)
    requires name in p.infos && p'.infos.Keys == p.infos.Keys
    requires forall n :: n in p.infos && n != name ==> p'.infos[n] == p.infos[n]
    requires p'.infos[name].rank == p.infos[name].rank && MembersOk(p'.infos[name], layers, name)
    requires AgreeOff(p.weights, p'.weights, name) && AgreeOff(p.grads, p'.grads, name)
    requires p'.weights.Keys == p.weights.Keys && p'.grads.Keys <= p.weights.Keys
    ensures Stored(params, p'.weights, p'.grads) && Registered(layers, slots, p'.infos) && Ranked(byRank, p'.infos)
    ensures OnlyTouches(p, p', layers, name)
  {
    SlotsAreAdapterNames(layers, slots, params);
    ConfinedKeepsOthers(p, p', layers, name);
    SameRanks(byRank, p.infos, p'.infos);
  }

  lemma RankSlotRegistered(byRank: map<nat, seq<string>>, infos: map<string, AdapterInfo>, rank: nat, name: string)
    requires Ranked(byRank, infos) && rank in byRank && name in byRank[rank]
    ensures name in infos && infos[name].rank == rank
  {
    var i :| 0 <= i < |byRank[rank]| && byRank[rank][i] == name;
    assert byRank[rank][i] == AdapterName(rank, i);
  }

  // What the optimizer of the loading slot is afterwards: the file's, if it is read and there is one.
  function OptimizerAfter(file: Option<SavedOptimizer>, withOptimizer: bool, before: AdapterInfo): Option<SavedOptimizer> {
    if withOptimizer && file.Some? then file else SavedOptimizerOf(before)
  }

  // A checkpoint of some slot's weights, loaded into any slot of any pool with the same
  // layers, restores exactly those weights, and the optimizer's hyper-parameters and moments
  // by position, and changes no other slot; only an optimizer of another size is refused.
  method Restore(target: Worker, t: string, ck: Checkpoint, withOptimizer: bool, ghost saved: seq<Option<real>>) returns (ok: bool)
    requires target.Valid() && t in target.infos && target.layers != []
    requires SavedAs(ck.state, CanonKeys(target.layers), saved) && forall i :: 0 <= i < |saved| ==> saved[i].Some?
    modifies target`infos, target`active, target`weights
    ensures target.Valid() && t in target.infos
    ensures target.State(t).weights == saved && target.State(t).grads == old(target.State(t)).grads
    ensures OnlyTouches(old(target.Snap()), target.Snap(), target.layers, t)
    ensures ok <==> !(withOptimizer && ck.optimizer.Some? && ck.optimizer.value.size != 2 * |target.layers|)
    ensures ok ==> SavedOptimizerOf(target.infos[t]) == OptimizerAfter(ck.optimizer, withOptimizer, old(target.infos)[t])
  {
    ghost var ws := target.State(t).weights;
    CanonKeyAt(target.layers);
    SlotKeys(target.layers, target.slots, target.params, t);
    var r, canon := target.LoadCheckpoint(t, ck, target.targetModules, target.targetParameters, withOptimizer);
    LoadRestoresSaved(target.layers, ck.state, canon, saved, ws);
    assert CanonKeys(target.layers)[0] in canon;
    assert !r.NothingMatched?;
    assert r.Loaded? || r.OptimizerSize?;
    assert target.State(t).weights == LoadedValues(ws, CanonKeys(target.layers), canon);
    ok := r.Loaded?;
  }

  // Saved from one slot and loaded into another: weights and optimizer carry over by position.
  // A save that leaves no optimizer leaves an older file at the path, and that is what is loaded.
  method SaveThenLoad(source: Worker, s: string, saveOptimizer: bool, there: Option<SavedOptimizer>, target: Worker, t: string, loadOptimizer: bool)
    returns (ok: bool)
    requires source.Valid() && s in source.infos && target.Valid() && t in target.infos
    requires source.layers == target.layers && target.layers != []
    modifies source`active, target`infos, target`active, target`weights
    ensures t in target.infos && target.State(t).weights == old(source.State(s)).weights
    ensures OnlyTouches(old(target.Snap()), target.Snap(), target.layers, t)
    ensures saveOptimizer && old(source.infos)[s].optimizer.Some? ==> ok
    ensures ok && saveOptimizer && loadOptimizer && old(source.infos)[s].optimizer.Some? ==>
              SavedOptimizerOf(target.infos[t]) == SavedOptimizerOf(old(source.infos)[s])
    ensures ok ==> OptimizerCarried(old(source.infos)[s], saveOptimizer, there, old(target.infos)[t], loadOptimizer, target.infos[t])
    ensures var file := OptimizerFile(old(source.infos)[s], saveOptimizer, there);
            ok ==> SavedOptimizerOf(target.infos[t]) == OptimizerAfter(file, loadOptimizer, old(target.infos)[t])
    ensures !ok ==> loadOptimizer && there.Some? && there.value.size != 2 * |target.layers|
  {
    ghost var saved := source.State(s).weights;
    AllPresent(source.Snap(), source.layers, source.slots, source.params, s);
    SourceSize(source.infos[s], source.layers, source.slots, source.params, s);
    var ck := source.SaveCheckpoint(s, saveOptimizer, there);
    assert target.Snap() == old(target.Snap());
    ghost var from, before := source.infos[s], target.infos[t];
    ok := Restore(target, t, ck, loadOptimizer, saved);
    if ok {
      CarriedExactly(from, saveOptimizer, there, before, loadOptimizer, target.infos[t]);
    }
  }

  // The loading slot has the saved optimizer's numbers, or those of an older file at the
  // path, or keeps its own.
  ghost predicate OptimizerCarried(from: AdapterInfo, save: bool, there: Option<SavedOptimizer>, before: AdapterInfo, load: bool, after: AdapterInfo) {
    if load && save && from.optimizer.Some? then
      && after.optimizer.Some? && after.optimizer.value.hyper == from.optimizer.value.hyper
      && after.optimizer.value.moments == from.optimizer.value.moments
    else if load && there.Some? then
      after.optimizer.Some? && after.optimizer.value.hyper == there.value.hyper && after.optimizer.value.moments == there.value.moments
    else
      && (after.optimizer.Some? <==> before.optimizer.Some?)
      && (after.optimizer.Some? ==>
            after.optimizer.value.hyper == before.optimizer.value.hyper && after.optimizer.value.moments == before.optimizer.value.moments)
  }

  lemma CarriedExactly(from: AdapterInfo, save: bool, there: Option<SavedOptimizer>, before: AdapterInfo, load: bool, after: AdapterInfo)
    requires SavedOptimizerOf(after) == OptimizerAfter(OptimizerFile(from, save, there), load, before)
    ensures OptimizerCarried(from, save, there, before, load, after)
  {
  }

  // Slots over the same layers have optimizers of one size.
  lemma SourceSize(info: AdapterInfo, layers: seq<string>, slots: seq<string>, params: seq<string>, name: string)
    requires Geometry(layers, slots, params) && name in slots && MembersOk(info, layers, name)
    ensures info.optimizer.Some? ==> SavedOptimizerOf(info).value.size == 2 * |layers|
  {
    CanonKeyAt(layers);
    SlotKeys(layers, slots, params, name);
  }

  lemma AllPresent(p: Pool, layers: seq<string>, slots: seq<string>, params: seq<string>, name: string)
    requires Geometry(layers, slots, params) && Stored(params, p.weights, p.grads) && name in slots
    ensures forall i :: 0 <= i < |OnSlot(p.weights, layers, name)| ==> OnSlot(p.weights, layers, name)[i].Some?
  {
    SlotOwnsParams(layers, slots, params, name);
  }
}
