// Whole runs of one rank's slot pool: what a slot goes through depends on the operations that
// name it and on nothing else (src/tuft/backends/fsdp_training_backend.py).
module SlotRuns {
  import opened Wrappers
  import opened SlotNames
  import opened SlotWorker

  // A gradient is a function of the slot's own weights; the base model is frozen.
  type Slope = seq<Option<real>> -> string -> real

  datatype SlotOp =
    | Train(slope: Slope, forwardOnly: bool)
    | Optimize(update: HyperUpdate, clip: Option<real>, adam: Adam, factor: ClipFactor)
    | Reset(init: string -> real)
    | Reserve(init: string -> real)
    | Release(init: string -> real)
    | Save(withOptimizer: bool, there: Option<SavedOptimizer>)
    | Load(ck: Checkpoint, modules: set<string>, parameters: set<string>, withOptimizer: bool)

  // The caller names the slot, or asks for any free one of a rank.
  datatype Event = Do(name: string, op: SlotOp) | Allocate(rank: nat, init: string -> real)

  // An operation as it took place: on which slot, and for a load, the values under canonical keys.
  datatype Done = Done(name: string, op: SlotOp, canon: map<string, real>)

  datatype Setting = Setting(layers: seq<string>, modules: set<string>, parameters: set<string>)

  // ---------- What each operation makes of a slot, in terms of that slot alone ----------

  predicate Sized(layers: seq<string>, name: string, s: SlotState) {
    |s.weights| == |s.grads| == |SlotParams(layers, name)|
  }

  function Trained(layers: seq<string>, name: string, s: SlotState, slope: Slope, forwardOnly: bool): SlotState
    requires Sized(layers, name, s)
  {
    var names := SlotParams(layers, name);
    SlotState(WithOptimizer(s.info, layers, name), s.weights,
              if forwardOnly then s.grads
              else seq(|names|, i requires 0 <= i < |names| => Some(OrZero(s.grads[i]) + slope(s.weights)(names[i]))))
  }

  function Moments(h: Hyper, adam: Adam, ms: map<nat, Moment>, ws: seq<Option<real>>, gs: seq<Option<real>>): map<nat, Moment>
    requires |ws| == |gs|
  {
    map i | i in ms.Keys + (set i: nat | i < |ws| && ws[i].Some? && gs[i].Some?) ::
      if i < |ws| && ws[i].Some? && gs[i].Some? then adam(h, MomentAt(ms, i), ws[i].value, gs[i].value).moment else ms[i]
  }

  function Optimized(layers: seq<string>, name: string, s: SlotState, update: HyperUpdate, clip: Option<real>, adam: Adam, factor: ClipFactor): SlotState
    requires Sized(layers, name, s)
  {
    var opt := WithOptimizer(s.info, layers, name).optimizer.value;
    var h, gs := Updated(opt.hyper, update), Clipped(s.grads, clip, factor);
    var ms := Moments(h, adam, opt.moments, s.weights, gs);
    SlotState(AdapterInfo(s.info.rank, Some(Optimizer(h, SlotParams(layers, name), ms)), s.info.steps + 1),
              seq(|gs|, i requires 0 <= i < |gs| => StepAt(h, adam, MomentAt(opt.moments, i), s.weights[i], gs[i]).0),
              seq(|gs|, _ => None))
  }

  function Redrawn(layers: seq<string>, name: string, s: SlotState, init: string -> real): SlotState {
    SlotState(AdapterInfo(s.info.rank, None, 0), FreshWeights(layers, name, init), seq(|SlotParams(layers, name)|, _ => None))
  }

  predicate Matches(layers: seq<string>, canon: map<string, real>) {
    exists i :: 0 <= i < |CanonKeys(layers)| && CanonKeys(layers)[i] in canon
  }

  function LoadedState(g: Setting, name: string, s: SlotState, load: SlotOp, canon: map<string, real>): SlotState
    requires Sized(g.layers, name, s) && load.Load?
  {
    if load.modules != g.modules || load.parameters != g.parameters || !Matches(g.layers, canon) then s
    else
      CanonKeyAt(g.layers);
      SlotParamAt(g.layers, name);
      SlotState(InfoLoaded(s.info, g.layers, name, if load.withOptimizer then load.ck.optimizer else None),
                LoadedValues(s.weights, CanonKeys(g.layers), canon), s.grads)
  }

  function After(g: Setting, d: Done, s: SlotState): (s': SlotState)
    requires Sized(g.layers, d.name, s)
    ensures Sized(g.layers, d.name, s')
  {
    match d.op
    case Train(slope, forwardOnly) => Trained(g.layers, d.name, s, slope, forwardOnly)
    case Optimize(update, clip, adam, factor) => Optimized(g.layers, d.name, s, update, clip, adam, factor)
    case Reset(init) => Redrawn(g.layers, d.name, s, init)
    case Reserve(init) => Redrawn(g.layers, d.name, s, init)
    case Release(init) => Redrawn(g.layers, d.name, s, init)
    case Save(_, _) => s
    case Load(_, _, _, _) => LoadedState(g, d.name, s, d.op, d.canon)
  }

  // The operations of a run that name the slot.
  function Own(run: seq<Done>, name: string): (own: seq<Done>)
    ensures forall i :: 0 <= i < |own| ==> own[i].name == name
  {
    if run == [] then []
    else
      var last := run[|run| - 1];
      Own(run[..|run| - 1], name) + if last.name == name then [last] else []
  }

  // The slot after these operations and no others.
  function Alone(g: Setting, name: string, own: seq<Done>, s: SlotState): (s': SlotState)
    requires Sized(g.layers, name, s) && forall i :: 0 <= i < |own| ==> own[i].name == name
    ensures Sized(g.layers, name, s')
  {
    if own == [] then s else After(g, own[|own| - 1], Alone(g, name, own[..|own| - 1], s))
  }

  // ---------- Each operation does just that ----------

  lemma TrainedIs(layers: seq<string>, name: string, s: SlotState, s': SlotState, slope: Slope, forwardOnly: bool)
    requires Sized(layers, name, s) && s'.info == WithOptimizer(s.info, layers, name) && s'.weights == s.weights
    requires if forwardOnly then s'.grads == s.grads else Accumulated(s.grads, SlotParams(layers, name), slope(s.weights), s'.grads)
    ensures s' == Trained(layers, name, s, slope, forwardOnly)
  {
  }

  lemma OptimizedIs(layers: seq<string>, name: string, s: SlotState, s': SlotState, update: HyperUpdate, clip: Option<real>, adam: Adam,
                    factor: ClipFactor)
    requires Sized(layers, name, s) && SlotStep(s, update, clip, adam, factor, layers, name, s')
    ensures s' == Optimized(layers, name, s, update, clip, adam, factor)
  {
    var opt := WithOptimizer(s.info, layers, name).optimizer.value;
    var h, gs := Updated(opt.hyper, update), Clipped(s.grads, clip, factor);
    MomentsAre(h, adam, opt.moments, s.weights, gs, s'.weights, s'.info.optimizer.value.moments);
    assert s'.weights == Optimized(layers, name, s, update, clip, adam, factor).weights;
    assert s'.grads == Optimized(layers, name, s, update, clip, adam, factor).grads;
  }

  lemma MomentsAre(h: Hyper, adam: Adam, ms: map<nat, Moment>, ws: seq<Option<real>>, gs: seq<Option<real>>,
                   ws': seq<Option<real>>, ms': map<nat, Moment>)
    requires |ws| == |gs| && SteppedTo(h, adam, |ws|, ws, gs, ms, ws', ms')
    ensures ms' == Moments(h, adam, ms, ws, gs)
  {
    var want := Moments(h, adam, ms, ws, gs);
    forall i: nat
      ensures i in ms' <==> i in want
      ensures i in ms' ==> ms'[i] == want[i]
    {
      assert MomentAt(ms', i) == if i < |ws| then StepAt(h, adam, MomentAt(ms, i), ws[i], gs[i]).1 else MomentAt(ms, i);
    }
  }

  lemma RedrawnIs(layers: seq<string>, name: string, s: SlotState, s': SlotState, init: string -> real)
    requires Sized(layers, name, s') && Fresh(s', FreshWeights(layers, name, init)) && s'.info.rank == s.info.rank
    ensures s' == Redrawn(layers, name, s, init)
  {
  }

  lemma LoadedIs(g: Setting, name: string, s: SlotState, s': SlotState, load: SlotOp, canon: map<string, real>, r: LoadResult)
    requires Sized(g.layers, name, s) && load.Load? && |s.weights| == |CanonKeys(g.layers)|
    requires r.ModulesDiffer? || r.ParametersDiffer? <==> load.modules != g.modules || load.parameters != g.parameters
    requires !r.ModulesDiffer? && !r.ParametersDiffer? ==> (r.NothingMatched? <==> !Matches(g.layers, canon))
    requires !r.Loaded? && !r.OptimizerSize? ==> s' == s
    requires r.Loaded? || r.OptimizerSize? ==>
               s' == SlotState(InfoLoaded(s.info, g.layers, name, if load.withOptimizer then load.ck.optimizer else None),
                               LoadedValues(s.weights, CanonKeys(g.layers), canon), s.grads)
    ensures s' == LoadedState(g, name, s, load, canon)
  {
  }

  // ---------- Runs ----------

  function SettingOf(w: Worker): Setting {
    Setting(w.layers, w.targetModules, w.targetParameters)
  }

  lemma StateSized(p: Pool, layers: seq<string>, name: string)
    requires name in p.infos
    ensures Sized(layers, name, StateOf(p, layers, name))
  {
  }

  // The operation has done to its slot what After says, and nothing to any other.
  ghost predicate Did(g: Setting, p: Pool, p': Pool, d: Done) {
    && OnlyTouches(p, p', g.layers, d.name) && d.name in p.infos && d.name in p'.infos
    && (d.op.Load? ==> IsCanonicalState(d.op.ck.state, {}, d.canon))
    && Sized(g.layers, d.name, StateOf(p, g.layers, d.name))
    && StateOf(p', g.layers, d.name) == After(g, d, StateOf(p, g.layers, d.name))
  }

  // One operation on a registered slot.
  method Perform(w: Worker, name: string, op: SlotOp) returns (ghost d: Done)
    requires w.Valid() && name in w.infos
    modifies w
    ensures w.Valid() && d.name == name && d.op == op && Did(SettingOf(w), old(w.Snap()), w.Snap(), d)
  {
    d := Done(name, op, map[]);
    match op {
      case Train(slope, forwardOnly) => PerformTrain(w, name, slope, forwardOnly);
      case Optimize(_, _, _, _) => PerformOptimize(w, name, op);
      case Reset(_) => PerformRedraw(w, name, op);
      case Reserve(_) => PerformRedraw(w, name, op);
      case Release(_) => PerformRedraw(w, name, op);
      case Save(_, _) => PerformSave(w, name, op);
      case Load(_, _, _, _) => d := PerformLoad(w, name, op);
    }
  }

  method PerformTrain(w: Worker, name: string, slope: Slope, forwardOnly: bool)
    requires w.Valid() && name in w.infos
    modifies w
    ensures w.Valid() && Did(SettingOf(w), old(w.Snap()), w.Snap(), Done(name, Train(slope, forwardOnly), map[]))
  {
    StateSized(w.Snap(), w.layers, name);
    ghost var s := w.State(name);
    w.ForwardBackward(name, slope(w.State(name).weights), forwardOnly);
    TrainedIs(w.layers, name, s, w.State(name), slope, forwardOnly);
  }

  method PerformOptimize(w: Worker, name: string, op: SlotOp)
    requires w.Valid() && name in w.infos && op.Optimize?
    modifies w
    ensures w.Valid() && Did(SettingOf(w), old(w.Snap()), w.Snap(), Done(name, op, map[]))
  {
    StateSized(w.Snap(), w.layers, name);
    ghost var s := w.State(name);
    var _ := w.OptimStep(name, op.update, op.clip, op.adam, op.factor);
    OptimizedIs(w.layers, name, s, w.State(name), op.update, op.clip, op.adam, op.factor);
  }

  method PerformRedraw(w: Worker, name: string, op: SlotOp)
    requires w.Valid() && name in w.infos && (op.Reset? || op.Reserve? || op.Release?)
    modifies w
    ensures w.Valid() && Did(SettingOf(w), old(w.Snap()), w.Snap(), Done(name, op, map[]))
  {
    match op {
      case Reset(init) => w.ResetAdapterSlot(name, init);
      case Reserve(init) => w.ReserveSlot(name, init);
      case Release(init) => w.ReleaseSlot(name, init);
    }
    RedrawDid(SettingOf(w), old(w.Snap()), w.Snap(), name, op);
  }

  lemma SaveDid(g: Setting, p: Pool, d: Done)
    requires d.name in p.infos && d.op.Save?
    ensures Did(g, p, p, d)
  {
    StateSized(p, g.layers, d.name);
  }

  lemma RedrawDid(g: Setting, p: Pool, p': Pool, name: string, op: SlotOp)
    requires OnlyTouches(p, p', g.layers, name) && name in p.infos && name in p'.infos && (op.Reset? || op.Reserve? || op.Release?)
    requires Fresh(StateOf(p', g.layers, name), FreshWeights(g.layers, name, op.init)) && p'.infos[name].rank == p.infos[name].rank
    ensures Did(g, p, p', Done(name, op, map[]))
  {
    StateSized(p, g.layers, name);
    StateSized(p', g.layers, name);
    RedrawnIs(g.layers, name, StateOf(p, g.layers, name), StateOf(p', g.layers, name), op.init);
  }

  method PerformSave(w: Worker, name: string, op: SlotOp)
    requires w.Valid() && name in w.infos && op.Save?
    modifies w
    ensures w.Valid() && Did(SettingOf(w), old(w.Snap()), w.Snap(), Done(name, op, map[]))
  {
    var _ := w.SaveCheckpoint(name, op.withOptimizer, op.there);
    assert w.Look() == old(w.Look());
    SaveDid(SettingOf(w), w.Snap(), Done(name, op, map[]));
  }

  lemma LoadDid(g: Setting, p: Pool, p': Pool, d: Done)
    requires OnlyTouches(p, p', g.layers, d.name) && d.name in p.infos && d.name in p'.infos
    requires d.op.Load? && IsCanonicalState(d.op.ck.state, {}, d.canon)
    requires Sized(g.layers, d.name, StateOf(p, g.layers, d.name))
    requires StateOf(p', g.layers, d.name) == LoadedState(g, d.name, StateOf(p, g.layers, d.name), d.op, d.canon)
    ensures Did(g, p, p', d)
  {
  }

  method PerformLoad(w: Worker, name: string, op: SlotOp) returns (ghost d: Done)
    requires w.Valid() && name in w.infos && op.Load?
    modifies w
    ensures w.Valid() && d.name == name && d.op == op && Did(SettingOf(w), old(w.Snap()), w.Snap(), d)
  {
    StateSized(w.Snap(), w.layers, name);
    ghost var s := w.State(name);
    var r;
    ghost var canon;
    r, canon := w.LoadCheckpoint(name, op.ck, op.modules, op.parameters, op.withOptimizer);
    d := Done(name, op, canon);
    LoadedIs(SettingOf(w), name, s, w.State(name), op, canon, r);
    LoadDid(SettingOf(w), old(w.Snap()), w.Snap(), d);
  }

  // Parameters of no slot: the base model's.
  ghost predicate BaseKept(p: Pool, p': Pool) {
    forall k :: (forall n :: n in p.infos ==> !Mentions(k, n)) ==> Lookup(p'.weights, k) == Lookup(p.weights, k)
  }

  // Every slot is where its own operations lead, and the base model is as it was.
  ghost predicate Isolated(g: Setting, p: Pool, p': Pool, run: seq<Done>) {
    && p'.infos.Keys == p.infos.Keys && BaseKept(p, p')
    && forall n :: n in p.infos ==> StandsAlone(g, n, StateOf(p, g.layers, n), StateOf(p', g.layers, n), run)
  }

  ghost predicate StandsAlone(g: Setting, name: string, s: SlotState, s': SlotState, run: seq<Done>) {
    Sized(g.layers, name, s) && s' == Alone(g, name, Own(run, name), s)
  }

  lemma NothingDone(g: Setting, p: Pool)
    ensures Isolated(g, p, p, [])
  {
  }

  lemma OneMoreDone(g: Setting, start: Pool, p: Pool, p': Pool, run: seq<Done>, d: Done)
    requires Isolated(g, start, p, run) && Did(g, p, p', d)
    ensures Isolated(g, start, p', run + [d])
  {
    forall n | n in start.infos
      ensures StandsAlone(g, n, StateOf(start, g.layers, n), StateOf(p', g.layers, n), run + [d])
    {
      OneMoreFor(g, n, StateOf(start, g.layers, n), StateOf(p, g.layers, n), StateOf(p', g.layers, n), run, d);
    }
    BaseStays(start, p, p', d.name);
  }

  lemma BaseStays(start: Pool, p: Pool, p': Pool, name: string)
    requires BaseKept(start, p) && AgreeOff(p.weights, p'.weights, name) && name in start.infos
    ensures BaseKept(start, p')
  {
    forall k | forall n :: n in start.infos ==> !Mentions(k, n)
      ensures Lookup(p'.weights, k) == Lookup(start.weights, k)
    {
      assert !Mentions(k, name);
    }
  }

  lemma OneMoreFor(g: Setting, n: string, s: SlotState, now: SlotState, next: SlotState, run: seq<Done>, d: Done)
    requires StandsAlone(g, n, s, now, run)
    requires if n == d.name then next == After(g, d, now) else next == now
    ensures StandsAlone(g, n, s, next, run + [d])
  {
    OneMoreOwn(run, d, n);
    if n == d.name {
      AloneNext(g, n, Own(run, n), d, s);
    }
  }

  lemma AloneNext(g: Setting, name: string, own: seq<Done>, d: Done, s: SlotState)
    requires Sized(g.layers, name, s) && d.name == name && forall i :: 0 <= i < |own| ==> own[i].name == name
    ensures Alone(g, name, own + [d], s) == After(g, d, Alone(g, name, own, s))
  {
    assert (own + [d])[..|own|] == own;
  }

  lemma OneMoreOwn(run: seq<Done>, d: Done, name: string)
    ensures Own(run + [d], name) == if d.name == name then Own(run, name) + [d] else Own(run, name)
  {
    assert (run + [d])[..|run|] == run;
  }

  // What took place of an event: an allocation is a reservation of the slot it found, and
  // unknown names and exhausted ranks change nothing.
  ghost predicate TookPlace(e: Event, names: set<string>, done: seq<Done>) {
    match e
    case Do(name, op) => if name in names then |done| == 1 && done[0].name == name && done[0].op == op else done == []
    case Allocate(_, init) => done == [] || (|done| == 1 && done[0].name in names && done[0].op == Reserve(init))
  }

  method Handle(w: Worker, e: Event, ghost start: Pool, ghost run: seq<Done>) returns (ghost done: seq<Done>)
    requires w.Valid() && Isolated(SettingOf(w), start, w.Snap(), run)
    modifies w
    ensures w.Valid() && Isolated(SettingOf(w), start, w.Snap(), run + done) && TookPlace(e, start.infos.Keys, done)
    ensures e.Allocate? ==> AnswersFor(old(w.byRank), old(w.taken), old(w.infos), e.rank, if done == [] then None else Some(done[0].name))
  {
    done := [];
    assert run + [] == run;
    ghost var p := w.Snap();
    match e {
      case Do(name, op) =>
        if name in w.infos {
          var d := Perform(w, name, op);
          OneMoreDone(SettingOf(w), start, p, w.Snap(), run, d);
          done := [d];
        }
      case Allocate(rank, init) =>
        var r := PerformAllocate(w, rank, init);
        if r.Some? {
          OneMoreDone(SettingOf(w), start, p, w.Snap(), run, Done(r.value, Reserve(init), map[]));
          done := [Done(r.value, Reserve(init), map[])];
        }
    }
  }

  method PerformAllocate(w: Worker, rank: nat, init: string -> real) returns (r: Option<string>)
    requires w.Valid()
    modifies w
    ensures w.Valid()
    ensures r == None ==> w.Snap() == old(w.Snap())
    ensures AnswersFor(old(w.byRank), old(w.taken), old(w.infos), rank, r)
    ensures r.Some? ==> r.value in w.infos && Did(SettingOf(w), old(w.Snap()), w.Snap(), Done(r.value, Reserve(init), map[]))
  {
    ghost var p := w.Snap();
    r := w.AllocateSlot(rank, init);
    if r.Some? {
      RedrawDid(SettingOf(w), p, w.Snap(), r.value, Reserve(init));
    }
  }

  // Over any interleaving of operations, every slot ends in the state its own operations,
  // run alone from its own start, lead to.
  method Run(w: Worker, events: seq<Event>) returns (ghost parts: seq<seq<Done>>)
    requires w.Valid()
    modifies w
    ensures w.Valid() && Isolated(SettingOf(w), old(w.Snap()), w.Snap(), Joined(parts))
    ensures Traced(events, old(w.infos).Keys, parts)
    decreases |events|
  {
    if events == [] {
      NothingDone(SettingOf(w), w.Snap());
      return [];
    }
    ghost var start := w.Snap();
    parts := Run(w, events[..|events| - 1]);
    ghost var done := Handle(w, events[|events| - 1], start, Joined(parts));
    OneMorePart(events, start.infos.Keys, parts, done);
    parts := parts + [done];
  }

  ghost predicate Traced(events: seq<Event>, names: set<string>, parts: seq<seq<Done>>) {
    |parts| == |events| && forall i :: 0 <= i < |events| ==> TookPlace(events[i], names, parts[i])
  }

  lemma OneMorePart(events: seq<Event>, names: set<string>, parts: seq<seq<Done>>, done: seq<Done>)
    requires events != [] && Traced(events[..|events| - 1], names, parts) && TookPlace(events[|events| - 1], names, done)
    ensures Traced(events, names, parts + [done]) && Joined(parts + [done]) == Joined(parts) + done
  {
    assert (parts + [done])[..|parts|] == parts;
  }

  function Joined(parts: seq<seq<Done>>): seq<Done> {
    if parts == [] then [] else Joined(parts[..|parts| - 1]) + parts[|parts| - 1]
  }

  // So two pools, whatever else they hold and do, leave a slot alike that they had alike and
  // whose own operations are the same.
  lemma SameOwnSameSlot(g: Setting, name: string, p1: Pool, p1': Pool, run1: seq<Done>, p2: Pool, p2': Pool, run2: seq<Done>)
    requires Isolated(g, p1, p1', run1) && Isolated(g, p2, p2', run2) && name in p1.infos && name in p2.infos
    requires StateOf(p1, g.layers, name) == StateOf(p2, g.layers, name) && Own(run1, name) == Own(run2, name)
    ensures StateOf(p1', g.layers, name) == StateOf(p2', g.layers, name)
  {
    assert StandsAlone(g, name, StateOf(p1, g.layers, name), StateOf(p1', g.layers, name), run1);
    assert StandsAlone(g, name, StateOf(p2, g.layers, name), StateOf(p2', g.layers, name), run2);
  }
}
