// Handing preallocated slots to training runs, replicated on every rank:
// FSDPTrainingBackend.create_adapter and remove_adapter
// (src/tuft/backends/fsdp_training_backend.py).
module SlotBackend {
  import opened Wrappers
  import opened SlotNames
  import opened SlotWorker

  // ---------- One slot switched on or off on every rank ----------

  // Reserving or releasing leaves the slot fresh and nothing else changed.
  ghost predicate Switched(im: Image, im': Image, name: string, on: bool, init: string -> real) {
    && im'.layers == im.layers && im'.slots == im.slots && im'.params == im.params && im'.byRank == im.byRank
    && OnlyTouches(im.pool, im'.pool, im.layers, name)
    && name in im.pool.infos && im'.pool.infos[name].rank == im.pool.infos[name].rank
    && Fresh(StateOf(im'.pool, im.layers, name), FreshWeights(im.layers, name, init))
    && im'.taken == Marked(im.taken, name, on)
  }

  function Marked(taken: map<string, bool>, name: string, on: bool): map<string, bool> {
    if on then taken[name := true] else taken - {name}
  }

  // The two predicates as values, so that loops over ranks need not open them.
  datatype Seal = Seal(sound: Image -> bool, switched: (Image, Image) -> bool)

  ghost predicate SoundSeal(seal: Seal) {
    forall im {:trigger Sound(im)} :: seal.sound(im) <==> Sound(im)
  }

  ghost predicate Seals(seal: Seal, name: string, on: bool, init: string -> real) {
    && SoundSeal(seal)
    && (forall im, im' {:trigger Switched(im, im', name, on, init)} :: seal.switched(im, im') <==> Switched(im, im', name, on, init))
  }

  // The ranks are different objects, all of them in the given set.
  ghost predicate Separate(ws: seq<Worker>, all: set<Worker>) {
    && (forall i :: 0 <= i < |ws| ==> ws[i] in all)
    && (forall i, j :: 0 <= i < j < |ws| ==> ws[i] != ws[j])
  }

  method ReserveOne(w: Worker, name: string, init: string -> real)
    requires w.Valid() && name in w.infos
    modifies w`infos, w`weights, w`grads, w`taken
    ensures w.Valid() && Switched(old(w.Look()), w.Look(), name, true, init)
  {
    w.ReserveSlot(name, init);
  }

  method ReleaseOne(w: Worker, name: string, init: string -> real)
    requires w.Valid() && name in w.infos
    modifies w`infos, w`weights, w`grads, w`taken
    ensures w.Valid() && Switched(old(w.Look()), w.Look(), name, false, init)
  {
    w.ReleaseSlot(name, init);
  }

  method SwitchOne(w: Worker, name: string, on: bool, init: string -> real, ghost seal: Seal)
    requires Seals(seal, name, on, init) && seal.sound(w.Look()) && name in w.slots
    modifies w`infos, w`weights, w`grads, w`taken
    ensures seal.sound(w.Look()) && seal.switched(old(w.Look()), w.Look())
    ensures w.taken == Marked(old(w.taken), name, on)
  {
    assert Sound(w.Look());
    assert name in w.infos;
    if on {
      ReserveOne(w, name, init);
    } else {
      ReleaseOne(w, name, init);
    }
  }

  // Switch the slot on ranks k and up, in turn.
  method SwitchFrom(ws: seq<Worker>, ghost all: set<Worker>, k: nat, name: string, on: bool, init: string -> real, ghost seal: Seal)
    requires Seals(seal, name, on, init) && Separate(ws, all) && k <= |ws|
    requires forall i :: k <= i < |ws| ==> seal.sound(ws[i].Look()) && name in ws[i].slots
    modifies all`infos, all`weights, all`grads, all`taken
    ensures forall i :: 0 <= i < k ==> ws[i].Look() == old(ws[i].Look())
    ensures forall i :: k <= i < |ws| ==> seal.sound(ws[i].Look()) && seal.switched(old(ws[i].Look()), ws[i].Look())
    ensures forall i :: k <= i < |ws| ==> ws[i].taken == Marked(old(ws[i].taken), name, on)
  {
    for i := k to |ws|
      invariant forall j :: k <= j < i ==> seal.sound(ws[j].Look()) && seal.switched(old(ws[j].Look()), ws[j].Look())
      invariant forall j :: k <= j < i ==> ws[j].taken == Marked(old(ws[j].taken), name, on)
      invariant forall j :: 0 <= j < |ws| && (j < k || i <= j) ==> ws[j].Look() == old(ws[j].Look())
    {
      SwitchOne(ws[i], name, on, init, seal);
    }
  }

  // Every rank was built with the same slots.
  ghost predicate SameShape(ws: seq<Worker>)
    reads ws
  {
    forall i :: 0 <= i < |ws| ==> ws[i].slots == ws[0].slots && ws[i].byRank == ws[0].byRank && ws[i].layers == ws[0].layers
  }

  ghost function SealOf(name: string, on: bool, init: string -> real): (seal: Seal)
    ensures Seals(seal, name, on, init)
  {
    Seal(im => Sound(im), (im, im') => Switched(im, im', name, on, init))
  }

  ghost function Looks(ws: seq<Worker>): seq<Image>
    reads ws
  {
    seq(|ws|, i requires 0 <= i < |ws| reads ws => ws[i].Look())
  }

  // The slot has been switched on every rank.
  ghost predicate AllSwitched(before: seq<Image>, after: seq<Image>, name: string, on: bool, init: string -> real) {
    |after| == |before|
    && (after != [] ==>
          var n := |after| - 1;
          AllSwitched(before[..n], after[..n], name, on, init) && Switched(before[n], after[n], name, on, init))
  }

  lemma {:induction false} AllSwitchedSealed(before: seq<Image>, after: seq<Image>, seal: Seal, name: string, on: bool, init: string -> real)
    requires Seals(seal, name, on, init) && |after| == |before|
    requires forall i :: 0 <= i < |after| ==> seal.switched(before[i], after[i])
    ensures AllSwitched(before, after, name, on, init)
  {
    if after != [] {
      var n := |after| - 1;
      AllSwitchedSealed(before[..n], after[..n], seal, name, on, init);
      Unseal(seal, name, on, init, before[n], after[n]);
    }
  }

  lemma {:induction false} AllSwitchedAt(before: seq<Image>, after: seq<Image>, name: string, on: bool, init: string -> real, i: nat)
    requires AllSwitched(before, after, name, on, init) && i < |after|
    ensures Switched(before[i], after[i], name, on, init)
  {
    if i < |after| - 1 {
      AllSwitchedAt(before[..|after| - 1], after[..|after| - 1], name, on, init, i);
    }
  }

  lemma Unseal(seal: Seal, name: string, on: bool, init: string -> real, im: Image, im': Image)
    requires Seals(seal, name, on, init) && seal.switched(im, im')
    ensures Switched(im, im', name, on, init)
  {
    assert Switched(im, im', name, on, init) <==> seal.switched(im, im');
  }

  ghost predicate AllSealed(ws: seq<Worker>, seal: Seal)
    reads ws
  {
    forall i :: 0 <= i < |ws| ==> seal.sound(ws[i].Look())
  }

  // Take the lead rank's first free slot, then reserve the same slot on the others.
  method AllocateEverywhere(ws: seq<Worker>, ghost all: set<Worker>, rank: nat, init: string -> real, ghost seal0: Seal)
    returns (r: Option<string>)
    requires SoundSeal(seal0) && AllSealed(ws, seal0)
    requires Separate(ws, all) && ws != [] && SameShape(ws)
    modifies all`infos, all`weights, all`grads, all`taken
    ensures AllSealed(ws, seal0)
    ensures AnswersFor(ws[0].byRank, old(ws[0].taken), old(ws[0].infos), rank, r)
    ensures r == None ==> Looks(ws) == old(Looks(ws)) && Takens(ws) == old(Takens(ws))
    ensures r.Some? ==> AllSwitched(old(Looks(ws)), Looks(ws), r.value, true, init) && MarkedAll(old(Takens(ws)), Takens(ws), r.value, true)
  {
    ghost var seal;
    r, seal := TakeRanks(ws, all, rank, init, seal0);
    if r.Some? {
      AllSwitchedSealed(old(Looks(ws)), Looks(ws), seal, r.value, true, init);
    }
  }

  method TakeRanks(ws: seq<Worker>, ghost all: set<Worker>, rank: nat, init: string -> real, ghost seal0: Seal)
    returns (r: Option<string>, ghost seal: Seal)
    requires SoundSeal(seal0) && AllSealed(ws, seal0)
    requires Separate(ws, all) && ws != [] && SameShape(ws)
    modifies all`infos, all`weights, all`grads, all`taken
    ensures AllSealed(ws, seal0)
    ensures AnswersFor(ws[0].byRank, old(ws[0].taken), old(ws[0].infos), rank, r)
    ensures r == None ==> Looks(ws) == old(Looks(ws)) && Takens(ws) == old(Takens(ws))
    ensures r.Some? ==> Seals(seal, r.value, true, init) && forall i :: 0 <= i < |ws| ==> seal.switched(old(ws[i].Look()), ws[i].Look())
    ensures r.Some? ==> forall i :: 0 <= i < |ws| ==> ws[i].taken == Marked(old(ws[i].taken), r.value, true)
  {
    r, seal := AllocateLead(ws[0], rank, init, seal0);
    assert forall i :: 1 <= i < |ws| ==> ws[i].Look() == old(ws[i].Look());
    assert r == None ==> ws[0].taken == ws[0].Look().taken == old(ws[0].Look()).taken;
    if r.Some? {
      SwitchFrom(ws, all, 1, r.value, true, init, seal);
    }
  }

  method ReleaseRanks(ws: seq<Worker>, ghost all: set<Worker>, name: string, init: string -> real, ghost seal0: Seal)
    requires SoundSeal(seal0) && AllSealed(ws, seal0) && Separate(ws, all)
    requires forall i :: 0 <= i < |ws| ==> name in ws[i].slots
    modifies all`infos, all`weights, all`grads, all`taken
    ensures AllSealed(ws, seal0)
    ensures AllSwitched(old(Looks(ws)), Looks(ws), name, false, init) && MarkedAll(old(Takens(ws)), Takens(ws), name, false)
  {
    ghost var seal := Renamed(seal0, name, false, init);
    SwitchFrom(ws, all, 0, name, false, init, seal);
    AllSwitchedSealed(old(Looks(ws)), Looks(ws), seal, name, false, init);
  }

  ghost function Renamed(seal: Seal, name: string, on: bool, init: string -> real): (seal': Seal)
    requires SoundSeal(seal)
    ensures Seals(seal', name, on, init) && seal'.sound == seal.sound
  {
    seal.(switched := (im, im') => Switched(im, im', name, on, init))
  }

  method AllocateLead(w: Worker, rank: nat, init: string -> real, ghost seal0: Seal) returns (r: Option<string>, ghost seal: Seal)
    requires SoundSeal(seal0) && seal0.sound(w.Look())
    modifies w`infos, w`weights, w`grads, w`taken
    ensures seal0.sound(w.Look())
    ensures AnswersFor(w.byRank, old(w.taken), old(w.infos), rank, r)
    ensures r == None ==> w.Look() == old(w.Look())
    ensures r.Some? ==> r.value in w.slots && Seals(seal, r.value, true, init) && seal.sound == seal0.sound
    ensures r.Some? ==> seal.switched(old(w.Look()), w.Look()) && w.taken == Marked(old(w.taken), r.value, true)
  {
    assert Sound(w.Look());
    r := TakeSlot(w, rank, init);
    seal := if r.Some? then Renamed(seal0, r.value, true, init) else seal0;
    assert Sound(w.Look());
    if r.Some? {
      assert Switched(old(w.Look()), w.Look(), r.value, true, init);
    }
  }

  method TakeSlot(w: Worker, rank: nat, init: string -> real) returns (r: Option<string>)
    requires w.Valid()
    modifies w`infos, w`weights, w`grads, w`taken
    ensures w.Valid()
    ensures AnswersFor(w.byRank, old(w.taken), old(w.infos), rank, r)
    ensures r == None ==> w.Look() == old(w.Look())
    ensures r.Some? ==> Switched(old(w.Look()), w.Look(), r.value, true, init)
    ensures r.Some? ==> r.value in w.slots
  {
    r := w.AllocateSlot(rank, init);
  }

  // ---------- The registry of runs ----------

  datatype CreateError = RankNotConfigured | Exhausted(capacity: nat)

  // The two name maps are mutually inverse.
  ghost predicate Inverse(slotOf: map<string, string>, runOf: map<string, string>) {
    && (forall id :: id in slotOf ==> slotOf[id] in runOf && runOf[slotOf[id]] == id)
    && (forall n :: n in runOf ==> runOf[n] in slotOf && slotOf[runOf[n]] == n)
  }

  // Every run holds a slot of the rank it asked for.
  ghost predicate HoldsRank(slotOf: map<string, string>, rankOf: map<string, nat>, byRank: map<nat, seq<string>>) {
    rankOf.Keys == slotOf.Keys && forall id :: id in slotOf ==> slotOf[id] in RankList(byRank, rankOf[id])
  }

  // On every rank the taken slots are exactly those some run holds.
  ghost predicate TakenAreHeld(takens: seq<map<string, bool>>, runOf: map<string, string>) {
    forall i, n :: 0 <= i < |takens| ==> (TakenIn(takens[i], n) <==> n in runOf)
  }

  ghost function Takens(ws: seq<Worker>): seq<map<string, bool>>
    reads ws
  {
    seq(|ws|, i requires 0 <= i < |ws| reads ws => ws[i].taken)
  }

  ghost predicate Agree(takens: seq<map<string, bool>>, slotOf: map<string, string>, runOf: map<string, string>, rankOf: map<string, nat>,
                        byRank: map<nat, seq<string>>) {
    Inverse(slotOf, runOf) && TakenAreHeld(takens, runOf) && HoldsRank(slotOf, rankOf, byRank)
  }

  ghost predicate MarkedAll(takens: seq<map<string, bool>>, takens': seq<map<string, bool>>, name: string, on: bool) {
    |takens'| == |takens| && forall i :: 0 <= i < |takens| ==> takens'[i] == Marked(takens[i], name, on)
  }

  ghost predicate NothingTaken(takens: seq<map<string, bool>>) {
    forall i, n :: 0 <= i < |takens| ==> !TakenIn(takens[i], n)
  }

  lemma NothingHeldAgrees(takens: seq<map<string, bool>>, byRank: map<nat, seq<string>>)
    requires NothingTaken(takens)
    ensures Agree(takens, map[], map[], map[], byRank)
  {
  }

  // Binding a free slot keeps everything in agreement exactly when the run is new.
  lemma BindingAgreesExactlyWhenFresh(takens: seq<map<string, bool>>, takens': seq<map<string, bool>>, slotOf: map<string, string>,
                                      runOf: map<string, string>, rankOf: map<string, nat>, byRank: map<nat, seq<string>>,
                                      id: string, name: string, rank: nat)
    requires Agree(takens, slotOf, runOf, rankOf, byRank) && MarkedAll(takens, takens', name, true)
    requires name !in runOf && name in RankList(byRank, rank)
    ensures Agree(takens', slotOf[id := name], runOf[name := id], rankOf[id := rank], byRank) <==> id !in slotOf
  {
    if id in slotOf {
      assert slotOf[id] in runOf && runOf[name := id][slotOf[id]] == id;
    } else {
      forall i, n | 0 <= i < |takens'|
        ensures TakenIn(takens'[i], n) <==> n in runOf[name := id]
      {
        assert TakenIn(takens[i], n) <==> n in runOf;
      }
    }
  }

  lemma UnbindingAgrees(takens: seq<map<string, bool>>, takens': seq<map<string, bool>>, slotOf: map<string, string>,
                        runOf: map<string, string>, rankOf: map<string, nat>, byRank: map<nat, seq<string>>, id: string)
    requires Agree(takens, slotOf, runOf, rankOf, byRank) && id in slotOf && MarkedAll(takens, takens', slotOf[id], false)
    ensures Agree(takens', slotOf - {id}, runOf - {slotOf[id]}, rankOf - {id}, byRank)
  {
    forall i, n | 0 <= i < |takens'|
      ensures TakenIn(takens'[i], n) <==> n in runOf - {slotOf[id]}
    {
      assert TakenIn(takens[i], n) <==> n in runOf;
    }
  }

  ghost predicate AllHeld(byRank: map<nat, seq<string>>, runOf: map<string, string>, rank: nat) {
    forall i :: 0 <= i < |RankList(byRank, rank)| ==> RankList(byRank, rank)[i] in runOf
  }

  // What the lead's table answers, in terms of the runs: a slot nobody holds, or that all are held.
  lemma AnswerMeansHeld(takens: seq<map<string, bool>>, runOf: map<string, string>, byRank: map<nat, seq<string>>,
                        infos: map<string, AdapterInfo>, rank: nat, r: Option<string>)
    requires takens != [] && TakenAreHeld(takens, runOf) && AnswersFor(byRank, takens[0], infos, rank, r)
    ensures r == None <==> AllHeld(byRank, runOf, rank)
    ensures r.Some? ==> r.value !in runOf && r.value in RankList(byRank, rank)
  {
    forall n
      ensures TakenIn(takens[0], n) <==> n in runOf
    {
    }
    if r.Some? {
      var i :| 0 <= i < |RankList(byRank, rank)| && RankList(byRank, rank)[i] == r.value;
    }
  }

  // ---------- Counting ----------

  ghost predicate Named(byRank: map<nat, seq<string>>) {
    forall r: nat, i: nat :: r in byRank && i < |byRank[r]| ==> byRank[r][i] == AdapterName(r, i)
  }

  // Runs that asked for a rank, and the rank's slots nobody holds.
  ghost function RunsOf(rankOf: map<string, nat>, rank: nat): set<string> {
    set id | id in rankOf && rankOf[id] == rank
  }

  ghost function FreeSlots(byRank: map<nat, seq<string>>, runOf: map<string, string>, rank: nat): set<string> {
    set n | n in RankList(byRank, rank) && n !in runOf
  }

  lemma {:induction false} InjectionKeepsSize<K, V>(m: map<K, V>, ids: set<K>, names: set<V>)
    requires ids <= m.Keys && forall i, j :: i in ids && j in ids && m[i] == m[j] ==> i == j
    requires forall n :: n in names <==> exists i :: i in ids && m[i] == n
    ensures |ids| == |names|
    decreases |ids|
  {
    if ids == {} {
      assert names == {};
    } else {
      var id :| id in ids;
      var n := m[id];
      forall x
        ensures x in names - {n} <==> exists i :: i in ids - {id} && m[i] == x
      {
        if x in names - {n} {
          var i :| i in ids && m[i] == x;
          assert i in ids - {id};
        }
      }
      InjectionKeepsSize(m, ids - {id}, names - {n});
    }
  }

  lemma {:induction false} DistinctSize<T>(xs: seq<T>, elems: set<T>)
    requires forall i, j :: 0 <= i < j < |xs| ==> xs[i] != xs[j]
    requires forall x :: x in elems <==> x in xs
    ensures |elems| == |xs|
  {
    if xs == [] {
      assert elems == {};
    } else {
      var n := |xs| - 1;
      forall x
        ensures x in elems - {xs[n]} <==> x in xs[..n]
      {
      }
      DistinctSize(xs[..n], elems - {xs[n]});
    }
  }

  // The slots of a rank that runs hold are the slots of the runs that asked for it.
  lemma HeldSlotsAreRuns(slotOf: map<string, string>, runOf: map<string, string>, rankOf: map<string, nat>,
                         byRank: map<nat, seq<string>>, rank: nat, n: string)
    requires Inverse(slotOf, runOf) && HoldsRank(slotOf, rankOf, byRank) && Named(byRank)
    ensures n in RankList(byRank, rank) && n in runOf <==> exists id :: id in RunsOf(rankOf, rank) && slotOf[id] == n
  {
    if n in RankList(byRank, rank) && n in runOf {
      var id := runOf[n];
      var r := rankOf[id];
      assert n in RankList(byRank, r);
      var i :| 0 <= i < |byRank[rank]| && byRank[rank][i] == n;
      var j :| 0 <= j < |byRank[r]| && byRank[r][j] == n;
      assert byRank[rank][i] == AdapterName(rank, i) && byRank[r][j] == AdapterName(r, j);
      AdapterNameInjective(rank, i, r, j);
      assert id in RunsOf(rankOf, rank);
    }
  }

  // Used plus free is the capacity, and a rank is exhausted exactly when that many runs asked for it.
  lemma SlotsAreConserved(slotOf: map<string, string>, runOf: map<string, string>, rankOf: map<string, nat>,
                          byRank: map<nat, seq<string>>, rank: nat)
    requires Inverse(slotOf, runOf) && HoldsRank(slotOf, rankOf, byRank) && Named(byRank)
    ensures |RunsOf(rankOf, rank)| + |FreeSlots(byRank, runOf, rank)| == |RankList(byRank, rank)|
    ensures AllHeld(byRank, runOf, rank) <==> |RunsOf(rankOf, rank)| == |RankList(byRank, rank)|
  {
    var names := RankList(byRank, rank);
    var all := set n | n in names;
    var held := set n | n in names && n in runOf;
    var free := FreeSlots(byRank, runOf, rank);
    forall n
      ensures n in held <==> exists id :: id in RunsOf(rankOf, rank) && slotOf[id] == n
    {
      HeldSlotsAreRuns(slotOf, runOf, rankOf, byRank, rank, n);
    }
    InjectionKeepsSize(slotOf, RunsOf(rankOf, rank), held);
    NamesDistinct(byRank, rank);
    DistinctSize(names, all);
    Partition(all, held, free);
    NoneFreeMeansAllHeld(runOf, byRank, rank);
  }

  lemma NoneFreeMeansAllHeld(runOf: map<string, string>, byRank: map<nat, seq<string>>, rank: nat)
    ensures AllHeld(byRank, runOf, rank) <==> FreeSlots(byRank, runOf, rank) == {}
  {
    var names := RankList(byRank, rank);
    if AllHeld(byRank, runOf, rank) {
      forall n | n in names
        ensures n in runOf
      {
        var i :| 0 <= i < |names| && names[i] == n;
      }
    } else {
      var i :| 0 <= i < |names| && names[i] !in runOf;
      assert names[i] in FreeSlots(byRank, runOf, rank);
    }
  }

  lemma Partition<T>(all: set<T>, held: set<T>, free: set<T>)
    requires forall n :: n in all <==> n in held || n in free
    requires forall n :: !(n in held && n in free)
    ensures |held| + |free| == |all|
  {
    assert all == held + free && held * free == {};
  }

  lemma NamesDistinct(byRank: map<nat, seq<string>>, rank: nat)
    requires Named(byRank)
    ensures forall i, j :: 0 <= i < j < |RankList(byRank, rank)| ==> RankList(byRank, rank)[i] != RankList(byRank, rank)[j]
  {
    forall i, j | 0 <= i < j < |RankList(byRank, rank)|
      ensures RankList(byRank, rank)[i] != RankList(byRank, rank)[j]
    {
      assert byRank[rank][i] == AdapterName(rank, i) && byRank[rank][j] == AdapterName(rank, j);
      if AdapterName(rank, i) == AdapterName(rank, j) {
        AdapterNameInjective(rank, i, rank, j);
        assert false;
      }
    }
  }

  class Backend {
    const workers: seq<Worker>
    ghost const members: set<Worker>
    ghost const seal: Seal
    const rankSlots: map<nat, nat>
    var slotOf: map<string, string>
    var runOf: map<string, string>
    ghost var rankOf: map<string, nat>

    // The ranks' pools are sound and were built from the same configuration.
    ghost predicate Valid()
      reads this, members, workers
    {
      && workers != [] && Separate(workers, members) && SameShape(workers)
      && SoundSeal(seal) && AllSealed(workers, seal)
      && forall r :: r in rankSlots ==> |RankList(workers[0].byRank, r)| == rankSlots[r]
    }

    ghost predicate Consistent()
      requires workers != []
      reads this, workers
    {
      Agree(Takens(workers), slotOf, runOf, rankOf, workers[0].byRank)
    }

    constructor (workers: seq<Worker>, ghost members: set<Worker>, rankSlots: map<nat, nat>)
      requires workers != [] && Separate(workers, members) && SameShape(workers)
      requires forall i :: 0 <= i < |workers| ==> Sound(workers[i].Look())
      requires NothingTaken(Takens(workers))
      requires forall r :: r in rankSlots ==> |RankList(workers[0].byRank, r)| == rankSlots[r]
      ensures this.workers == workers && this.members == members && this.rankSlots == rankSlots
      ensures slotOf == map[] && Valid() && Consistent()
    {
      this.workers, this.members, this.rankSlots := workers, members, rankSlots;
      seal := SealOf("", true, _ => 0.0);
      slotOf, runOf, rankOf := map[], map[], map[];
      new;
      assert forall i :: 0 <= i < |workers| ==> workers[i].Look() == old(workers[i].Look());
      assert Takens(workers) == old(Takens(workers));
      SealAll(workers, seal);
      NothingHeldAgrees(Takens(workers), workers[0].byRank);
    }

    // Used plus free is the configured capacity on every rank of the configuration.
    lemma Capacity(rank: nat)
      requires Valid() && Consistent() && rank in rankSlots
      ensures |RunsOf(rankOf, rank)| + |FreeSlots(workers[0].byRank, runOf, rank)| == rankSlots[rank]
      ensures AllHeld(workers[0].byRank, runOf, rank) <==> |RunsOf(rankOf, rank)| == rankSlots[rank]
    {
      assert Sound(workers[0].Look());
      SlotsAreConserved(slotOf, runOf, rankOf, workers[0].byRank, rank);
    }

    method CreateAdapter(id: string, rank: nat, init: string -> real) returns (r: Result<string, CreateError>)
      requires Valid() && Consistent()
      modifies this`slotOf, this`runOf, this`rankOf, members`infos, members`weights, members`grads, members`taken
      ensures Valid()
      ensures r == Err(RankNotConfigured) <==> rank !in rankSlots
      ensures rank in rankSlots ==> (r.Err? <==> AllHeld(workers[0].byRank, old(runOf), rank))
      ensures rank in rankSlots && r.Err? ==> r == Err(Exhausted(rankSlots[rank]))
      ensures r.Err? ==> slotOf == old(slotOf) && runOf == old(runOf) && rankOf == old(rankOf)
      ensures r.Err? ==> Looks(workers) == old(Looks(workers))
      ensures r.Ok? ==> r.value !in old(runOf) && r.value in RankList(workers[0].byRank, rank)
      ensures r.Ok? ==> slotOf == old(slotOf)[id := r.value] && runOf == old(runOf)[r.value := id] && rankOf == old(rankOf)[id := rank]
      ensures r.Ok? ==> AllSwitched(old(Looks(workers)), Looks(workers), r.value, true, init)
      ensures r.Ok? ==> (Consistent() <==> id !in old(slotOf))
      ensures r.Err? ==> Consistent()
    {
      if rank !in rankSlots {
        return Err(RankNotConfigured);
      }
      var name := TakeEverywhere(rank, init);
      if name == None {
        return Err(Exhausted(rankSlots[rank]));
      }
      Bind(id, name.value, rank);
      BindingAgreesExactlyWhenFresh(old(Takens(workers)), Takens(workers), old(slotOf), old(runOf), old(rankOf), workers[0].byRank,
                                    id, name.value, rank);
      r := Ok(name.value);
    }

    method Bind(id: string, name: string, rank: nat)
      requires Valid()
      modifies this`slotOf, this`runOf, this`rankOf
      ensures slotOf == old(slotOf)[id := name] && runOf == old(runOf)[name := id] && rankOf == old(rankOf)[id := rank]
      ensures Valid() && Looks(workers) == old(Looks(workers)) && Takens(workers) == old(Takens(workers))
    {
      slotOf := slotOf[id := name];
      runOf := runOf[name := id];
      rankOf := rankOf[id := rank];
      assert forall i :: 0 <= i < |workers| ==> workers[i].Look() == old(workers[i].Look());
    }

    method Unbind(id: string, name: string)
      requires Valid()
      modifies this`slotOf, this`runOf, this`rankOf
      ensures slotOf == old(slotOf) - {id} && runOf == old(runOf) - {name} && rankOf == old(rankOf) - {id}
      ensures Valid() && Looks(workers) == old(Looks(workers)) && Takens(workers) == old(Takens(workers))
    {
      slotOf := slotOf - {id};
      runOf := runOf - {name};
      rankOf := rankOf - {id};
      assert forall i :: 0 <= i < |workers| ==> workers[i].Look() == old(workers[i].Look());
    }

    method TakeEverywhere(rank: nat, init: string -> real) returns (name: Option<string>)
      requires Valid() && TakenAreHeld(Takens(workers), runOf)
      modifies members`infos, members`weights, members`grads, members`taken
      ensures Valid()
      ensures name == None <==> AllHeld(workers[0].byRank, runOf, rank)
      ensures name == None ==> Takens(workers) == old(Takens(workers))
      ensures name == None ==> Looks(workers) == old(Looks(workers))
      ensures name.Some? ==> name.value !in runOf && name.value in RankList(workers[0].byRank, rank)
      ensures name.Some? ==> MarkedAll(old(Takens(workers)), Takens(workers), name.value, true)
      ensures name.Some? ==> AllSwitched(old(Looks(workers)), Looks(workers), name.value, true, init)
    {
      ghost var takens, infos := Takens(workers), workers[0].infos;
      name := AllocateEverywhere(workers, members, rank, init, seal);
      AnswerMeansHeld(takens, runOf, workers[0].byRank, infos, rank, name);
    }

    method RemoveAdapter(id: string, init: string -> real)
      requires Valid() && Consistent()
      modifies this`slotOf, this`runOf, this`rankOf, members`infos, members`weights, members`grads, members`taken
      ensures Valid() && Consistent()
      ensures id !in old(slotOf) ==> slotOf == old(slotOf) && runOf == old(runOf) && rankOf == old(rankOf)
      ensures id !in old(slotOf) ==> Looks(workers) == old(Looks(workers))
      ensures id in old(slotOf) ==> slotOf == old(slotOf) - {id} && runOf == old(runOf) - {old(slotOf)[id]} && rankOf == old(rankOf) - {id}
      ensures id in old(slotOf) ==> AllSwitched(old(Looks(workers)), Looks(workers), old(slotOf)[id], false, init)
    {
      if id !in slotOf {
        return;
      }
      var name := slotOf[id];
      ghost var rank := rankOf[id];
      Unbind(id, name);
      ReleaseEverywhere(name, init, rank);
      UnbindingAgrees(old(Takens(workers)), Takens(workers), old(slotOf), old(runOf), old(rankOf), workers[0].byRank, id);
    }

    method ReleaseEverywhere(name: string, init: string -> real, ghost rank: nat)
      requires Valid() && name in RankList(workers[0].byRank, rank)
      modifies members`infos, members`weights, members`grads, members`taken
      ensures Valid()
      ensures MarkedAll(old(Takens(workers)), Takens(workers), name, false)
      ensures AllSwitched(old(Looks(workers)), Looks(workers), name, false, init)
    {
      RankedSlotKnown(workers, seal, name, rank);
      ReleaseRanks(workers, members, name, init, seal);
    }
  }

  lemma SealAll(ws: seq<Worker>, seal: Seal)
    requires SoundSeal(seal) && forall i :: 0 <= i < |ws| ==> Sound(ws[i].Look())
    ensures AllSealed(ws, seal)
  {
    forall i | 0 <= i < |ws|
      ensures seal.sound(ws[i].Look())
    {
      assert Sound(ws[i].Look());
    }
  }

  lemma RankedSlotKnown(ws: seq<Worker>, seal: Seal, name: string, rank: nat)
    requires ws != [] && SameShape(ws) && SoundSeal(seal) && AllSealed(ws, seal)
    requires name in RankList(ws[0].byRank, rank)
    ensures forall i :: 0 <= i < |ws| ==> name in ws[i].slots
  {
    assert Sound(ws[0].Look());
    RankSlotRegistered(ws[0].byRank, ws[0].infos, rank, name);
  }

  datatype Event = Create(id: string, rank: nat) | Drop(id: string)

  // The runs and their ranks after one event: a new run is admitted while its rank has
  // fewer runs than it was configured slots.
  ghost function Admitted(runs: map<string, nat>, e: Event, rankSlots: map<nat, nat>): map<string, nat> {
    match e
    case Create(id, rank) =>
      if id !in runs && rank in rankSlots && |RunsOf(runs, rank)| < rankSlots[rank] then runs[id := rank] else runs
    case Drop(id) => runs - {id}
  }

  ghost function AdmittedAll(runs: map<string, nat>, events: seq<Event>, rankSlots: map<nat, nat>): map<string, nat> {
    if events == [] then runs
    else Admitted(AdmittedAll(runs, events[..|events| - 1], rankSlots), events[|events| - 1], rankSlots)
  }

  // Every state reachable by creating runs under new ids and removing runs: slots and maps
  // agree, and who is admitted depends on the numbers of runs and slots only.
  method Run(b: Backend, events: seq<Event>, init: string -> real)
    requires b.Valid() && b.Consistent()
    modifies b, b.members
    ensures b.Valid() && b.Consistent()
    ensures b.rankOf == AdmittedAll(old(b.rankOf), events, b.rankSlots)
  {
    assert events[..0] == [];
    for i := 0 to |events|
      invariant b.Valid() && b.Consistent()
      invariant b.rankOf == AdmittedAll(old(b.rankOf), events[..i], b.rankSlots)
    {
      Perform(b, events[i], init);
      assert events[..i + 1][..i] == events[..i];
    }
    assert events[..|events|] == events;
  }

  method Perform(b: Backend, e: Event, init: string -> real)
    requires b.Valid() && b.Consistent()
    modifies b, b.members
    ensures b.Valid() && b.Consistent()
    ensures b.rankOf == Admitted(old(b.rankOf), e, b.rankSlots)
  {
    match e {
      case Create(id, rank) =>
        if rank in b.rankSlots {
          b.Capacity(rank);
        }
        if id !in b.slotOf {
          var _ := b.CreateAdapter(id, rank, init);
        }
      case Drop(id) =>
        b.RemoveAdapter(id, init);
    }
  }
}
