// Data-parallel sampling replicas: round-robin routing, and adapters kept the same on
// every replica (src/tuft/backends/sampling_backend.py).
module DataParallel {
  import opened Wrappers
  import opened Sharding

  // How registering an adapter on one replica ends.
  datatype AddOutcome = PathMissing | EngineRaised | EngineRefused | Added

  // VLLMSamplingBackend's registry: adapter id to the engine's integer id.
  class Replica {
    var counter: nat
    var adapters: map<string, nat>

    ghost predicate Valid()
      reads this
    {
      forall id :: id in adapters ==> adapters[id] <= counter + 1
    }

    constructor ()
      ensures Valid() && adapters == map[]
    {
      counter, adapters := 0, map[];
    }

    // The integer id is new to this engine; the registry changes only on success.
    method AddAdapter(id: string, outcome: AddOutcome) returns (ok: bool)
      requires Valid()
      modifies this
      ensures Valid() && counter >= old(counter)
      ensures ok <==> outcome.Added?
      ensures !ok ==> adapters == old(adapters)
      ensures ok ==> id in adapters && adapters == old(adapters)[id := adapters[id]] && forall x :: x in old(adapters) ==> old(adapters)[x] < adapters[id]
    {
      if outcome.PathMissing? {
        return false;
      }
      counter := counter + 1;
      var intId := counter + 1;
      if !outcome.Added? {
        return false;
      }
      adapters := adapters[id := intId];
      ok := true;
    }

    // The entry is dropped before the engine is asked, so an engine failure leaves it dropped.
    method RemoveAdapter(id: string, engineOk: bool) returns (ok: bool)
      requires Valid()
      modifies this
      ensures Valid() && adapters == old(adapters) - {id} && counter == old(counter)
      ensures ok <==> engineOk || id !in old(adapters)
    {
      ok := true;
      if id in adapters {
        adapters := adapters - {id};
        ok := engineOk;
      }
    }
  }

  // ---------- Round robin ----------

  function Share(n: nat, d: nat, r: nat): nat
    requires d > 0
  {
    n / d + if r < n % d then 1 else 0
  }

  lemma ShareStep(n: nat, d: nat, r: nat)
    requires d > 0 && r < d
    ensures Share(n + 1, d, r) == Share(n, d, r) + if r == n % d then 1 else 0
  {
    var q, m := n / d, n % d;
    assert n == q * d + m;
    if m + 1 < d {
      DivUnique(n + 1, d, q, m + 1);
    } else {
      assert n + 1 == (q + 1) * d;
      DivUnique(n + 1, d, q + 1, 0);
    }
  }

  // Every replica has been chosen n / d times, rounded down or up, and any two equally often up to one.
  lemma SharesEven(n: nat, d: nat, r: nat, s: nat)
    requires d > 0
    ensures n / d <= Share(n, d, r) <= CeilDiv(n, d) && Share(n, d, r) <= Share(n, d, s) + 1
  {
    var q, m := n / d, n % d;
    assert n == q * d + m;
    if m == 0 {
      DivUnique(n + d - 1, d, q, d - 1);
    } else {
      assert n + d - 1 == (q + 1) * d + (m - 1);
      DivUnique(n + d - 1, d, q + 1, m - 1);
    }
  }

  // ---------- The backend ----------

  ghost function Registries(rs: seq<Replica>): seq<map<string, nat>>
    reads rs
  {
    seq(|rs|, i requires 0 <= i < |rs| reads rs => rs[i].adapters)
  }

  // Every replica offers the same adapters.
  ghost predicate SameAdapters(regs: seq<map<string, nat>>) {
    forall i, j :: 0 <= i < |regs| && 0 <= j < |regs| ==> regs[i].Keys == regs[j].Keys
  }

  // One replica's adapters after an attempt to add one everywhere.
  function AfterAdd(keys: set<string>, id: string, ok: bool, anyFailed: bool): set<string> {
    if !ok then keys else if anyFailed then keys - {id} else keys + {id}
  }

  ghost predicate AddedTo(before: seq<map<string, nat>>, after: seq<map<string, nat>>, id: string, oks: seq<bool>) {
    && |before| == |after| == |oks|
    && forall i :: 0 <= i < |oks| ==> after[i].Keys == AfterAdd(before[i].Keys, id, oks[i], false in oks)
  }

  // After an attempt the replicas agree exactly when the id was new, or all of them
  // gave the same answer: rolling back a re-registered id removes the earlier entry.
  lemma RollbackAgreesExactly(before: seq<map<string, nat>>, after: seq<map<string, nat>>, id: string, oks: seq<bool>)
    requires before != [] && SameAdapters(before) && AddedTo(before, after, id, oks)
    ensures SameAdapters(after) <==> id !in before[0] || !(true in oks && false in oks)
  {
    var keys := before[0].Keys;
    forall i | 0 <= i < |oks|
      ensures after[i].Keys == AfterAdd(keys, id, oks[i], false in oks)
    {
    }
    if id in keys && true in oks && false in oks {
      var i :| 0 <= i < |oks| && oks[i];
      var j :| 0 <= j < |oks| && !oks[j];
      assert id !in after[i].Keys && id in after[j].Keys;
    } else if id !in keys {
      assert keys - {id} == keys;
    }
  }

  // A new id is offered by the first replica exactly when every replica took it.
  lemma FreshIdOffered(before: seq<map<string, nat>>, after: seq<map<string, nat>>, id: string, oks: seq<bool>)
    requires before != [] && AddedTo(before, after, id, oks)
    ensures id !in before[0] ==> after[0].Keys == if false in oks then before[0].Keys else before[0].Keys + {id}
  {
    assert after[0].Keys == AfterAdd(before[0].Keys, id, oks[0], false in oks);
    assert !(false in oks) ==> oks[0];
    assert id !in before[0] ==> before[0].Keys - {id} == before[0].Keys;
  }

  // Whatever the replicas will answer, they agree afterwards exactly when the id is new or
  // there is a single replica.
  lemma AgreesForAllAnswersExactly(before: seq<map<string, nat>>, id: string)
    requires before != [] && SameAdapters(before)
    ensures (forall after, oks | AddedTo(before, after, id, oks) :: SameAdapters(after)) <==> id !in before[0] || |before| == 1
  {
    if id !in before[0] || |before| == 1 {
      forall after, oks | AddedTo(before, after, id, oks)
        ensures SameAdapters(after)
      {
        RollbackAgreesExactly(before, after, id, oks);
      }
    } else {
      var oks := seq(|before|, i => i == 0);
      var after := before[0 := before[0] - {id}];
      assert !oks[1] && oks[0];
      assert after[0].Keys == before[0].Keys - {id};
      assert AddedTo(before, after, id, oks);
      RollbackAgreesExactly(before, after, id, oks);
    }
  }

  class DPBackend {
    const replicas: seq<Replica>
    ghost const members: set<Replica>
    var counter: nat
    ghost var chosen: seq<nat>

    ghost predicate Valid()
      reads this, members, replicas
    {
      && replicas != []
      && (forall i :: 0 <= i < |replicas| ==> replicas[i] in members && replicas[i].Valid())
      && (forall i, j :: 0 <= i < j < |replicas| ==> replicas[i] != replicas[j])
      && |chosen| == |replicas|
      && (forall r :: 0 <= r < |replicas| ==> chosen[r] == Share(counter, |replicas|, r))
    }

    constructor (replicas: seq<Replica>, ghost members: set<Replica>)
      requires replicas != [] && forall i :: 0 <= i < |replicas| ==> replicas[i] in members && replicas[i].Valid()
      requires forall i, j :: 0 <= i < j < |replicas| ==> replicas[i] != replicas[j]
      ensures Valid() && counter == 0 && this.replicas == replicas
    {
      this.replicas, this.members, counter := replicas, members, 0;
      chosen := seq(|replicas|, _ => 0);
    }

    // _next_instance: after n calls every replica has been chosen floor(n/d) or ceil(n/d) times.
    method NextInstance() returns (index: nat)
      requires Valid()
      modifies this`counter, this`chosen
      ensures Valid() && counter == old(counter) + 1
      ensures index == old(counter) % |replicas|
      ensures index < |replicas| && chosen == old(chosen)[index := old(chosen)[index] + 1]
    {
      index := counter % |replicas|;
      forall r | 0 <= r < |replicas|
        ensures Share(counter + 1, |replicas|, r) == Share(counter, |replicas|, r) + if r == index then 1 else 0
      {
        ShareStep(counter, |replicas|, r);
      }
      counter := counter + 1;
      chosen := chosen[index := chosen[index] + 1];
    }

    // Add everywhere; if any replica fails, undo it where it had succeeded.
    method AddAdapter(id: string, outcomes: seq<AddOutcome>, removals: seq<bool>) returns (ok: bool)
      requires Valid() && |outcomes| == |removals| == |replicas| && SameAdapters(Registries(replicas))
      modifies members
      ensures Valid()
      ensures ok <==> forall i :: 0 <= i < |outcomes| ==> outcomes[i].Added?
      ensures AddedTo(old(Registries(replicas)), Registries(replicas), id, seq(|outcomes|, i requires 0 <= i < |outcomes| => outcomes[i].Added?))
      ensures id !in old(replicas[0].adapters) ==>
                replicas[0].adapters.Keys == if ok then old(replicas[0].adapters).Keys + {id} else old(replicas[0].adapters).Keys
      ensures SameAdapters(Registries(replicas)) <==>
              id !in old(replicas[0].adapters)
              || !((exists i :: 0 <= i < |outcomes| && outcomes[i].Added?) && (exists i :: 0 <= i < |outcomes| && !outcomes[i].Added?))
    {
      ghost var flags;
      ok, flags := AddOrUndo(id, outcomes, removals);
      assert flags == seq(|outcomes|, i requires 0 <= i < |outcomes| => outcomes[i].Added?);
      RollbackAgreesExactly(old(Registries(replicas)), Registries(replicas), id, flags);
      FreshIdOffered(old(Registries(replicas)), Registries(replicas), id, flags);
    }

    method AddOrUndo(id: string, outcomes: seq<AddOutcome>, removals: seq<bool>) returns (ok: bool, ghost oks: seq<bool>)
      requires Valid() && |outcomes| == |removals| == |replicas|
      modifies members
      ensures Valid()
      ensures |oks| == |outcomes| && forall i :: 0 <= i < |oks| ==> oks[i] == outcomes[i].Added?
      ensures ok <==> !(false in oks)
      ensures AddedTo(old(Registries(replicas)), Registries(replicas), id, oks)
    {
      var added := AddAll(id, outcomes);
      oks := added;
      ok := !(false in added);
      if !ok {
        RollBack(id, added, removals);
      }
    }

    method AddAll(id: string, outcomes: seq<AddOutcome>) returns (oks: seq<bool>)
      requires Valid() && |outcomes| == |replicas|
      modifies members
      ensures Valid() && |oks| == |outcomes|
      ensures forall i :: 0 <= i < |oks| ==> oks[i] == outcomes[i].Added?
      ensures forall i :: 0 <= i < |oks| ==> replicas[i].adapters.Keys == AfterAdd(old(replicas[i].adapters).Keys, id, oks[i], false)
    {
      oks := [];
      for i := 0 to |replicas|
        invariant Valid() && |oks| == i
        invariant forall j :: 0 <= j < i ==> oks[j] == outcomes[j].Added?
        invariant forall j :: 0 <= j < i ==> replicas[j].adapters.Keys == AfterAdd(old(replicas[j].adapters).Keys, id, oks[j], false)
        invariant forall j :: i <= j < |replicas| ==> replicas[j].adapters == old(replicas[j].adapters)
      {
        var one := replicas[i].AddAdapter(id, outcomes[i]);
        oks := oks + [one];
      }
    }

    method RollBack(id: string, oks: seq<bool>, removals: seq<bool>)
      requires Valid() && |oks| == |removals| == |replicas|
      modifies members
      ensures Valid()
      ensures forall i :: 0 <= i < |oks| ==> replicas[i].adapters == if oks[i] then old(replicas[i].adapters) - {id} else old(replicas[i].adapters)
    {
      for i := 0 to |replicas|
        invariant Valid()
        invariant forall j :: 0 <= j < |oks| ==>
                                replicas[j].adapters == if j < i && oks[j] then old(replicas[j].adapters) - {id} else old(replicas[j].adapters)
      {
        if oks[i] {
          var _ := replicas[i].RemoveAdapter(id, removals[i]);
        }
      }
    }

    // Removal reaches every replica, and keeps them alike.
    method RemoveAdapter(id: string, removals: seq<bool>)
      requires Valid() && |removals| == |replicas|
      modifies members
      ensures Valid()
      ensures forall i :: 0 <= i < |replicas| ==> replicas[i].adapters == old(replicas[i].adapters) - {id}
      ensures old(SameAdapters(Registries(replicas))) ==> SameAdapters(Registries(replicas))
    {
      for i := 0 to |replicas|
        invariant Valid()
        invariant forall j :: 0 <= j < |replicas| ==>
                                replicas[j].adapters == if j < i then old(replicas[j].adapters) - {id} else old(replicas[j].adapters)
      {
        var _ := replicas[i].RemoveAdapter(id, removals[i]);
      }
      RemovedAlike(old(Registries(replicas)), Registries(replicas), id);
    }
  }

  lemma RemovedAlike(before: seq<map<string, nat>>, after: seq<map<string, nat>>, id: string)
    requires |before| == |after| && forall i :: 0 <= i < |after| ==> after[i] == before[i] - {id}
    ensures SameAdapters(before) ==> SameAdapters(after)
  {
    if SameAdapters(before) {
      forall i, j | 0 <= i < |after| && 0 <= j < |after|
        ensures after[i].Keys == after[j].Keys
      {
        assert after[i].Keys == before[i].Keys - {id} && after[j].Keys == before[j].Keys - {id};
        assert before[i].Keys == before[j].Keys;
      }
    }
  }

  datatype Event = Sample | Add(id: string, outcomes: seq<AddOutcome>, removals: seq<bool>) | Remove(id: string, removals: seq<bool>)

  // What every replica offers after one event: a new id is added where all replicas took it.
  function Offered(ids: set<string>, e: Event, d: nat): set<string> {
    match e
    case Sample => ids
    case Add(id, outcomes, removals) =>
      if |outcomes| == |removals| == d && id !in ids && (forall i :: 0 <= i < d ==> outcomes[i] == Added) then ids + {id} else ids
    case Remove(id, removals) =>
      if |removals| == d then ids - {id} else ids
  }

  function OfferedAll(ids: set<string>, events: seq<Event>, d: nat): set<string> {
    if events == [] then ids else Offered(OfferedAll(ids, events[..|events| - 1], d), events[|events| - 1], d)
  }

  // Over any run that only adds new ids, replicas never disagree, whatever fails on the way,
  // and offer exactly the ids that all of them took and that have not been removed since.
  method Run(b: DPBackend, events: seq<Event>)
    requires b.Valid() && SameAdapters(Registries(b.replicas))
    modifies b, b.members
    ensures b.Valid() && SameAdapters(Registries(b.replicas))
    ensures b.replicas[0].adapters.Keys == OfferedAll(old(b.replicas[0].adapters.Keys), events, |b.replicas|)
  {
    assert events[..0] == [];
    for i := 0 to |events|
      invariant b.Valid() && SameAdapters(Registries(b.replicas))
      invariant b.replicas[0].adapters.Keys == OfferedAll(old(b.replicas[0].adapters.Keys), events[..i], |b.replicas|)
    {
      Perform(b, events[i]);
      assert events[..i + 1][..i] == events[..i];
    }
    assert events[..|events|] == events;
  }

  method Perform(b: DPBackend, e: Event)
    requires b.Valid() && SameAdapters(Registries(b.replicas))
    modifies b, b.members
    ensures b.Valid() && SameAdapters(Registries(b.replicas))
    ensures b.replicas[0].adapters.Keys == Offered(old(b.replicas[0].adapters.Keys), e, |b.replicas|)
    ensures b.counter == old(b.counter) + if e.Sample? then 1 else 0
  {
    match e {
      case Sample =>
        Choose(b);
      case Add(id, outcomes, removals) =>
        if |outcomes| == |removals| == |b.replicas| && id !in b.replicas[0].adapters {
          var _ := b.AddAdapter(id, outcomes, removals);
        }
      case Remove(id, removals) =>
        if |removals| == |b.replicas| {
          b.RemoveAdapter(id, removals);
        }
    }
  }

  method Choose(b: DPBackend)
    requires b.Valid() && SameAdapters(Registries(b.replicas))
    modifies b`counter, b`chosen
    ensures b.Valid() && SameAdapters(Registries(b.replicas)) && b.counter == old(b.counter) + 1
  {
    var _ := b.NextInstance();
    assert Registries(b.replicas) == old(Registries(b.replicas));
  }
}
