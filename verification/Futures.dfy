// Request futures: their ids, their lifecycle and their copies on disk (src/tuft/futures.py).
module Futures {
  import opened Wrappers

  datatype Status = Pending | Ready | Failed

  datatype Reason =
    | SampleInterrupted | RunCorrupted | CapabilityDisabled | NoCheckpoint | AfterCheckpoint(checkpointId: string)
    | OperationError(code: int)

  // What never changes about a future, and what does.
  datatype Info = Info(futureId: int, modelId: Option<string>, operation: Option<string>)

  datatype View = View(status: Status, error: Option<Reason>, payload: Option<int>, eventSet: bool)

  function Fail(v: View, reason: Reason): View {
    v.(status := Failed, error := Some(reason), eventSet := true)
  }

  class FutureRecord {
    const requestId: string
    const info: Info
    var status: Status
    var error: Option<Reason>
    var payload: Option<int>
    var eventSet: bool

    // Deserializing a completed future sets its event.
    constructor (requestId: string, info: Info, status: Status, error: Option<Reason>, payload: Option<int>)
      ensures this.requestId == requestId && this.info == info && Look() == View(status, error, payload, status != Pending)
    {
      this.requestId, this.info := requestId, info;
      this.status, this.error, this.payload, eventSet := status, error, payload, status != Pending;
    }

    function Look(): View
      reads this
    {
      View(status, error, payload, eventSet)
    }
  }

  datatype Saved = Saved(info: Info, status: Status, error: Option<Reason>, payload: Option<int>)

  function SavedOf(info: Info, v: View): Saved {
    Saved(info, v.status, v.error, v.payload)
  }

  // ---------- The store ----------

  type Records = map<string, FutureRecord>

  // Every key names its own record.
  predicate Keyed(records: Records) {
    forall k :: k in records ==> records[k].requestId == k
  }

  ghost function Objects(records: Records): set<FutureRecord> {
    set k | k in records :: records[k]
  }

  ghost function Views(records: Records): map<string, View>
    reads Objects(records)
  {
    map k | k in records :: records[k].Look()
  }

  ghost function Infos(records: Records): map<string, Info> {
    map k | k in records :: records[k].info
  }

  // A future's event is set exactly when it is no longer pending, and the disk agrees with memory.
  ghost predicate Settled(infos: map<string, Info>, views: map<string, View>, persisted: map<string, Saved>) {
    && infos.Keys == views.Keys
    && (forall k :: k in views ==> (views[k].eventSet <==> views[k].status != Pending))
    && (forall k :: k in views ==> k in persisted && persisted[k] == SavedOf(infos[k], views[k]))
    && (forall k :: k in persisted ==> k in views)
  }

  ghost predicate BelowNext(infos: map<string, Info>, next: int) {
    forall k :: k in infos ==> infos[k].futureId < next
  }

  // Every record satisfying the test has failed with the reason; the others are as before.
  ghost predicate FailedWhere(infos: map<string, Info>, views: map<string, View>, views': map<string, View>,
                              test: (Info, Status) -> bool, left: set<string>, reason: Reason) {
    && infos.Keys == views.Keys == views'.Keys
    && forall k :: k in views ==>
                     views'[k] == if k !in left && test(infos[k], views[k].status) then Fail(views[k], reason) else views[k]
  }

  lemma FailStep(infos: map<string, Info>, views: map<string, View>, now: map<string, View>, persisted: map<string, Saved>,
                 test: (Info, Status) -> bool, left: set<string>, reason: Reason, k: string)
    requires FailedWhere(infos, views, now, test, left, reason) && Settled(infos, now, persisted) && k in left && k in infos
    ensures now[k] == views[k]
    ensures test(infos[k], now[k].status) ==>
              && FailedWhere(infos, views, now[k := Fail(now[k], reason)], test, left - {k}, reason)
              && Settled(infos, now[k := Fail(now[k], reason)], persisted[k := SavedOf(infos[k], Fail(now[k], reason))])
    ensures !test(infos[k], now[k].status) ==> FailedWhere(infos, views, now, test, left - {k}, reason)
  {
  }

  lemma SettledWith(infos: map<string, Info>, views: map<string, View>, persisted: map<string, Saved>, k: string, info: Info, v: View)
    requires Settled(infos, views, persisted) && (v.eventSet <==> v.status != Pending)
    ensures Settled(infos[k := info], views[k := v], persisted[k := SavedOf(info, v)])
    ensures k in infos && infos[k] == info ==> infos[k := info] == infos
  {
  }

  // f is the loop's effect on one future.
  ghost predicate Marks(f: (Info, View) -> View, test: (Info, Status) -> bool, reason: Reason) {
    forall i: Info, v: View :: f(i, v) == if test(i, v.status) then Fail(v, reason) else v
  }

  // A disk content on which some futures are as f leaves them and the others as they were.
  ghost predicate Partly(infos: map<string, Info>, views: map<string, View>, f: (Info, View) -> View, disk: map<string, Saved>) {
    && infos.Keys == views.Keys == disk.Keys
    && forall k :: k in views ==> disk[k] == SavedOf(infos[k], views[k]) || disk[k] == SavedOf(infos[k], f(infos[k], views[k]))
  }

  ghost predicate PartlyDone(infos: map<string, Info>, views: map<string, View>, f: (Info, View) -> View,
                             before: seq<map<string, Saved>>, after: seq<map<string, Saved>>) {
    before <= after && forall n :: |before| <= n < |after| ==> Partly(infos, views, f, after[n])
  }

  ghost predicate IsPartly(partly: map<string, Saved> -> bool, infos: map<string, Info>, views: map<string, View>, f: (Info, View) -> View) {
    forall disk :: partly(disk) <==> Partly(infos, views, f, disk)
  }

  ghost predicate Grows(before: seq<map<string, Saved>>, after: seq<map<string, Saved>>, partly: map<string, Saved> -> bool) {
    before <= after && forall n :: |before| <= n < |after| ==> partly(after[n])
  }

  // Whatever part of the loop is done, the disk is one that `partly` admits.
  ghost predicate Covers(partly: map<string, Saved> -> bool, infos: map<string, Info>, before: map<string, View>,
                         test: (Info, Status) -> bool, reason: Reason) {
    forall now, left, disk :: FailedWhere(infos, before, now, test, left, reason) && Settled(infos, now, disk) ==> partly(disk)
  }

  lemma Covered(infos: map<string, Info>, before: map<string, View>, test: (Info, Status) -> bool, reason: Reason,
                f: (Info, View) -> View, partly: map<string, Saved> -> bool)
    requires Marks(f, test, reason) && IsPartly(partly, infos, before, f)
    ensures Covers(partly, infos, before, test, reason)
  {
    forall now, left, disk | FailedWhere(infos, before, now, test, left, reason) && Settled(infos, now, disk)
      ensures partly(disk)
    {
      assert Partly(infos, before, f, disk);
    }
  }

  lemma AllMarked(infos: map<string, Info>, views: map<string, View>, views': map<string, View>, test: (Info, Status) -> bool,
                  reason: Reason, f: (Info, View) -> View)
    requires Marks(f, test, reason) && FailedWhere(infos, views, views', test, {}, reason)
    ensures Pointwise(infos, views, views', f)
  {
  }

  // Views that agree off one key.
  lemma OneChanged(before: map<string, View>, after: map<string, View>, k: string)
    requires k in before && after.Keys == before.Keys && forall j :: j in before && j != k ==> after[j] == before[j]
    ensures after == before[k := after[k]]
  {
  }

  class FutureStore {
    var records: Records
    var nextFutureId: int
    var persisted: map<string, Saved>
    // Every content the disk has had, one after each save.
    ghost var trail: seq<map<string, Saved>>

    ghost predicate Valid()
      reads this, Objects(records)
    {
      && Keyed(records) && nextFutureId >= 1
      && Settled(Infos(records), Views(records), persisted)
      && BelowNext(Infos(records), nextFutureId)
    }

    constructor ()
      ensures Valid() && records == map[] && nextFutureId == 1 && persisted == map[]
    {
      records, nextFutureId, persisted, trail := map[], 1, map[], [];
    }

    method SaveFuture(requestId: string)
      requires requestId in records
      modifies this`persisted, this`trail
      ensures persisted == old(persisted)[requestId := SavedOf(records[requestId].info, records[requestId].Look())]
      ensures trail == old(trail) + [persisted]
      ensures Views(records) == old(Views(records))
    {
      var r := records[requestId];
      persisted := persisted[requestId := Saved(r.info, r.status, r.error, r.payload)];
      trail := trail + [persisted];
    }

    method FailOne(k: string, reason: Reason)
      requires k in records && Keyed(records)
      modifies records[k], this`persisted, this`trail
      ensures Views(records) == old(Views(records))[k := Fail(old(records[k].Look()), reason)]
      ensures persisted == old(persisted)[k := SavedOf(records[k].info, records[k].Look())] && trail == old(trail) + [persisted]
    {
      var r := records[k];
      r.status := Failed;
      r.error := Some(reason);
      r.eventSet := true;
      SaveFuture(k);
      assert forall j :: j in records && j != k ==> records[j] != r;
      OneChanged(old(Views(records)), Views(records), k);
    }

    method MarkWhere(test: (Info, Status) -> bool, reason: Reason, ghost f: (Info, View) -> View)
      requires Valid() && Marks(f, test, reason)
      modifies this`persisted, this`trail, Objects(records)
      ensures Valid()
      ensures Pointwise(Infos(records), old(Views(records)), Views(records), f)
      ensures PartlyDone(Infos(records), old(Views(records)), f, old(trail), trail)
    {
      ghost var infos, before, start := Infos(records), Views(records), trail;
      ghost var partly := disk => Partly(infos, before, f, disk);
      Covered(infos, before, test, reason, f, partly);
      MarkAll(test, reason, before, partly);
      AllMarked(infos, before, Views(records), test, reason, f);
    }

    // The loop all mark_* methods share.
    method MarkAll(test: (Info, Status) -> bool, reason: Reason, ghost before: map<string, View>,
                   ghost partly: map<string, Saved> -> bool)
      requires Valid() && before == Views(records) && Covers(partly, Infos(records), before, test, reason)
      modifies this`persisted, this`trail, Objects(records)
      ensures Valid() && FailedWhere(Infos(records), before, Views(records), test, {}, reason)
      ensures Grows(old(trail), trail, partly)
    {
      ghost var start := trail;
      var left := records.Keys;
      while left != {}
        invariant forall j :: j in left ==> j in records
        invariant Settled(Infos(records), Views(records), persisted)
        invariant FailedWhere(Infos(records), before, Views(records), test, left, reason)
        invariant Grows(start, trail, partly)
        decreases left
      {
        var k :| k in left;
        MarkNext(k, test, reason, before, left, partly);
        left := left - {k};
      }
    }

    method MarkNext(k: string, test: (Info, Status) -> bool, reason: Reason, ghost before: map<string, View>, ghost left: set<string>, ghost partly: map<string, Saved> -> bool)
      requires k in records && k in left && Keyed(records) && Settled(Infos(records), Views(records), persisted)
      requires FailedWhere(Infos(records), before, Views(records), test, left, reason)
      requires Covers(partly, Infos(records), before, test, reason)
      modifies this`persisted, this`trail, records[k]
      ensures Settled(Infos(records), Views(records), persisted)
      ensures FailedWhere(Infos(records), before, Views(records), test, left - {k}, reason)
      ensures Grows(old(trail), trail, partly)
    {
      FailStep(Infos(records), before, Views(records), persisted, test, left, reason, k);
      if test(records[k].info, records[k].status) {
        FailOne(k, reason);
      }
    }

    // ---------- The mark_* family ----------

    method MarkPendingSamplesFailed()
      requires Valid()
      modifies this`persisted, this`trail, Objects(records)
      ensures Valid() && Pointwise(Infos(records), old(Views(records)), Views(records), SampleStep)
      ensures PartlyDone(Infos(records), old(Views(records)), SampleStep, old(trail), trail)
    {
      MarkWhere(PendingSample, SampleInterrupted, SampleStep);
    }

    // Completed futures of the model stay retrievable.
    method MarkModelPendingFailed(modelId: Option<string>, reason: Reason)
      requires Valid()
      modifies this`persisted, this`trail, Objects(records)
      ensures Valid()
      ensures Pointwise(Infos(records), old(Views(records)), Views(records), PendingOf(modelId, reason))
      ensures PartlyDone(Infos(records), old(Views(records)), PendingOf(modelId, reason), old(trail), trail)
    {
      PendingMarks(modelId, reason);
      MarkWhere(PendingTest(modelId), reason, PendingOf(modelId, reason));
    }

    // Completed futures fail as well when they are newer than the checkpoint.
    method MarkFailedAfterCheckpoint(modelId: Option<string>, checkpointFutureId: Option<int>, reason: Reason)
      requires Valid()
      modifies this`persisted, this`trail, Objects(records)
      ensures Valid()
      ensures Pointwise(Infos(records), old(Views(records)), Views(records), LaterThan(modelId, checkpointFutureId, reason))
      ensures PartlyDone(Infos(records), old(Views(records)), LaterThan(modelId, checkpointFutureId, reason), old(trail), trail)
    {
      LaterMarks(modelId, checkpointFutureId, reason);
      MarkWhere(LaterTest(modelId, checkpointFutureId), reason, LaterThan(modelId, checkpointFutureId, reason));
    }

    // ---------- Ordinary life ----------

    method Enqueue(requestId: string, modelId: Option<string>, operation: Option<string>) returns (futureId: int)
      requires Valid() && requestId !in records
      modifies this
      ensures Valid() && requestId in records && Infos(records) == old(Infos(records))[requestId := Info(futureId, modelId, operation)]
      ensures BelowNext(old(Infos(records)), futureId)
      ensures nextFutureId == futureId + 1 && futureId == old(nextFutureId)
      ensures fresh(records[requestId]) && records == old(records)[requestId := records[requestId]]
      ensures Views(records) == old(Views(records))[requestId := View(Pending, None, None, false)]
    {
      futureId := AllocateFutureId();
      SettledWith(Infos(records), Views(records), persisted, requestId, Info(futureId, modelId, operation), View(Pending, None, None, false));
      StoreRecord(requestId, Info(futureId, modelId, operation));
    }

    method AllocateFutureId() returns (futureId: int)
      requires BelowNext(Infos(records), nextFutureId)
      modifies this`nextFutureId
      ensures futureId == old(nextFutureId) && nextFutureId == futureId + 1
      ensures BelowNext(Infos(records), futureId) && Views(records) == old(Views(records))
    {
      futureId := nextFutureId;
      nextFutureId := nextFutureId + 1;
    }

    method StoreRecord(requestId: string, info: Info)
      requires requestId !in records && Keyed(records)
      modifies this`records, this`persisted, this`trail
      ensures Keyed(records) && requestId in records && Infos(records) == old(Infos(records))[requestId := info]
      ensures Views(records) == old(Views(records))[requestId := View(Pending, None, None, false)]
      ensures persisted == old(persisted)[requestId := SavedOf(info, View(Pending, None, None, false))]
      ensures fresh(records[requestId]) && records == old(records)[requestId := records[requestId]]
    {
      Insert(requestId, info, Pending, None, None);
      assert records[requestId].info == Infos(records)[requestId] && records[requestId].Look() == Views(records)[requestId];
      SaveFuture(requestId);
    }

    method Insert(requestId: string, info: Info, status: Status, error: Option<Reason>, payload: Option<int>)
      requires requestId !in records && Keyed(records)
      modifies this`records
      ensures Keyed(records) && requestId in records && fresh(records[requestId]) && records == old(records)[requestId := records[requestId]]
      ensures Infos(records) == old(Infos(records))[requestId := info]
      ensures Views(records) == old(Views(records))[requestId := View(status, error, payload, status != Pending)]
    {
      var r := new FutureRecord(requestId, info, status, error, payload);
      records := records[requestId := r];
    }

    // The latest allocated id, which a checkpoint saved now carries.
    function CurrentFutureId(): int
      reads this
    {
      if nextFutureId > 1 then nextFutureId - 1 else 0
    }

    method MarkReady(requestId: string, payload: int)
      requires Valid()
      modifies this`persisted, this`trail, Objects(records)
      ensures Valid()
      ensures Views(records) == if requestId in records then old(Views(records))[requestId := View(Ready, None, Some(payload), true)]
                                else old(Views(records))
    {
      if requestId in records {
        SettledWith(Infos(records), Views(records), persisted, requestId, records[requestId].info, View(Ready, None, Some(payload), true));
        ReadyOne(requestId, payload);
      }
    }

    method ReadyOne(k: string, payload: int)
      requires k in records && Keyed(records)
      modifies records[k], this`persisted, this`trail
      ensures Views(records) == old(Views(records))[k := View(Ready, None, Some(payload), true)]
      ensures persisted == old(persisted)[k := SavedOf(records[k].info, records[k].Look())]
    {
      var r := records[k];
      r.payload := Some(payload);
      r.status := Ready;
      r.error := None;
      SaveFuture(k);
      r.eventSet := true;
      assert forall j :: j in records && j != k ==> records[j] != r;
      OneChanged(old(Views(records)), Views(records), k);
    }

    method MarkFailed(requestId: string, reason: Reason)
      requires Valid()
      modifies this`persisted, this`trail, Objects(records)
      ensures Valid()
      ensures Views(records) == if requestId in records then old(Views(records))[requestId := Fail(old(Views(records))[requestId], reason)]
                                else old(Views(records))
      ensures requestId in records ==>
                Views(records)[requestId] == View(Failed, Some(reason), old(Views(records))[requestId].payload, true)
    {
      if requestId in records {
        SettledWith(Infos(records), Views(records), persisted, requestId, records[requestId].info, Fail(records[requestId].Look(), reason));
        FailOne(requestId, reason);
      }
    }

    // ---------- Restart ----------

    // Reading every stored future back: the next id lies above all of them.
    constructor Restore(saved: map<string, Saved>)
      ensures Valid() && persisted == saved && trail == []
      ensures forall k :: k in records ==> fresh(records[k])
      ensures Reloaded(saved, {}, Infos(records), Views(records))
      ensures records.Keys == saved.Keys
      ensures forall k :: k in saved ==>
                Infos(records)[k] == saved[k].info
                && Views(records)[k] == View(saved[k].status, saved[k].error, saved[k].payload, saved[k].status != Pending)
      ensures nextFutureId >= 1 && forall k :: k in saved ==> saved[k].info.futureId < nextFutureId
    {
      records, nextFutureId, persisted, trail := map[], 1, saved, [];
      new;
      LoadAll(saved);
    }

    method LoadAll(saved: map<string, Saved>)
      requires records == map[] && nextFutureId == 1
      modifies this`records, this`nextFutureId
      ensures Keyed(records) && Reloaded(saved, {}, Infos(records), Views(records))
      ensures forall k :: k in records ==> fresh(records[k])
      ensures nextFutureId >= 1 && BelowNext(Infos(records), nextFutureId)
    {
      var left := saved.Keys;
      while left != {}
        invariant left <= saved.Keys && Keyed(records) && nextFutureId >= 1
        invariant Reloaded(saved, left, Infos(records), Views(records)) && BelowNext(Infos(records), nextFutureId)
        invariant forall k :: k in records ==> fresh(records[k])
        decreases |left|
      {
        var k :| k in left;
        ReloadStep(saved, left, Infos(records), Views(records), k);
        RestoreOne(k, saved[k]);
        left := left - {k};
      }
    }

    method RestoreOne(k: string, s: Saved)
      requires k !in records && Keyed(records) && BelowNext(Infos(records), nextFutureId)
      modifies this`records, this`nextFutureId
      ensures Keyed(records) && BelowNext(Infos(records), nextFutureId) && nextFutureId >= old(nextFutureId)
      ensures k in records && fresh(records[k]) && records == old(records)[k := records[k]]
      ensures Infos(records) == old(Infos(records))[k := s.info] && Views(records) == old(Views(records))[k := Revived(s)]
    {
      Insert(k, s.info, s.status, s.error, s.payload);
      if s.info.futureId >= nextFutureId {
        nextFutureId := s.info.futureId + 1;
      }
    }
  }

  function Revived(s: Saved): View {
    View(s.status, s.error, s.payload, s.status != Pending)
  }

  ghost predicate Reloaded(saved: map<string, Saved>, left: set<string>, infos: map<string, Info>, views: map<string, View>) {
    && (forall k :: k in infos <==> k in saved && k !in left)
    && infos.Keys == views.Keys
    && (forall k :: k in infos ==> infos[k] == saved[k].info && views[k] == Revived(saved[k]))
  }

  lemma ReloadStep(saved: map<string, Saved>, left: set<string>, infos: map<string, Info>, views: map<string, View>, k: string)
    requires Reloaded(saved, left, infos, views) && k in left && k in saved
    ensures k !in infos
    ensures Reloaded(saved, left - {k}, infos[k := saved[k].info], views[k := Revived(saved[k])])
  {
  }

  ghost predicate Pointwise(infos: map<string, Info>, views: map<string, View>, views': map<string, View>, f: (Info, View) -> View) {
    && infos.Keys == views.Keys == views'.Keys
    && forall k :: k in views ==> views'[k] == f(infos[k], views[k])
  }

  predicate PendingSample(i: Info, st: Status) {
    st == Pending && i.operation == Some("sample")
  }

  function PendingTest(modelId: Option<string>): (Info, Status) -> bool {
    (i: Info, st: Status) => !(i.modelId != modelId || st != Pending)
  }

  function LaterTest(modelId: Option<string>, checkpointFutureId: Option<int>): (Info, Status) -> bool {
    (i: Info, st: Status) => i.modelId == modelId && (checkpointFutureId.None? || i.futureId > checkpointFutureId.value)
  }

  // Only the model's pending futures fail.
  ghost function PendingOf(modelId: Option<string>, reason: Reason): (Info, View) -> View {
    (i: Info, v: View) => if v.status == Pending && i.modelId == modelId then Fail(v, reason) else v
  }

  // All of the model's futures above the id fail, or all of them without one.
  ghost function LaterThan(modelId: Option<string>, checkpointFutureId: Option<int>, reason: Reason): (Info, View) -> View {
    (i: Info, v: View) =>
      if i.modelId != modelId || (checkpointFutureId.Some? && i.futureId <= checkpointFutureId.value) then v else Fail(v, reason)
  }

  lemma PendingMarks(modelId: Option<string>, reason: Reason)
    ensures Marks(PendingOf(modelId, reason), PendingTest(modelId), reason)
  {
  }

  lemma LaterMarks(modelId: Option<string>, checkpointFutureId: Option<int>, reason: Reason)
    ensures Marks(LaterThan(modelId, checkpointFutureId, reason), LaterTest(modelId, checkpointFutureId), reason)
  {
  }

  function SampleStep(i: Info, v: View): View {
    if v.status == Pending && i.operation == Some("sample") then Fail(v, SampleInterrupted) else v
  }

  // ---------- Ids and the moment a checkpoint captures ----------

  datatype Request =
    | Arrive(requestId: string, modelId: Option<string>, operation: Option<string>)
    | Succeed(requestId: string, payload: int)
    | Break(requestId: string, reason: Reason)

  // The futures are those from before, whose ids go up to n, and new ones with larger ids.
  ghost predicate Since(before: map<string, Info>, after: map<string, Info>, n: int) {
    && (forall k :: k in before ==> k in after && after[k] == before[k])
    && (forall k :: k in after ==> (k in before <==> after[k].futureId <= n))
  }

  // What one request does to the futures and the next id.
  ghost predicate Served(request: Request, infos: map<string, Info>, views: map<string, View>, next: int,
                         infos': map<string, Info>, views': map<string, View>, next': int)
    requires infos.Keys == views.Keys
  {
    match request
    case Arrive(id, modelId, operation) =>
      if id in infos then infos' == infos && views' == views && next' == next
      else infos' == infos[id := Info(next, modelId, operation)] && views' == views[id := View(Pending, None, None, false)] && next' == next + 1
    case Succeed(id, payload) =>
      infos' == infos && next' == next && views' == if id in views then views[id := View(Ready, None, Some(payload), true)] else views
    case Break(id, reason) =>
      infos' == infos && next' == next
      && views' == if id in views then views[id := View(Failed, Some(reason), views[id].payload, true)] else views
  }

  datatype Shot = Shot(infos: map<string, Info>, views: map<string, View>, next: int)

  ghost function Now(store: FutureStore): Shot
    reads store, Objects(store.records)
  {
    Shot(Infos(store.records), Views(store.records), store.nextFutureId)
  }

  // One state before each request and one after the last.
  ghost predicate IsTrace(requests: seq<Request>, trace: seq<Shot>) {
    && |trace| == |requests| + 1
    && forall i :: 0 <= i < |requests| ==>
                     && trace[i].infos.Keys == trace[i].views.Keys
                     && Served(requests[i], trace[i].infos, trace[i].views, trace[i].next, trace[i + 1].infos, trace[i + 1].views, trace[i + 1].next)
  }

  lemma TraceNext(requests: seq<Request>, i: nat, trace: seq<Shot>, s: Shot)
    requires i < |requests| && IsTrace(requests[..i], trace) && trace[i].infos.Keys == trace[i].views.Keys
    requires Served(requests[i], trace[i].infos, trace[i].views, trace[i].next, s.infos, s.views, s.next)
    ensures IsTrace(requests[..i + 1], trace + [s])
  {
  }

  // Whatever is enqueued and completed after the current id was read, every id given
  // out from then on is larger, and no earlier one is.
  method Serve(store: FutureStore, requests: seq<Request>) returns (ghost trace: seq<Shot>)
    requires store.Valid()
    modifies store, Objects(store.records)
    ensures store.Valid() && Since(old(Infos(store.records)), Infos(store.records), old(store.CurrentFutureId()))
    ensures old(store.CurrentFutureId()) <= store.CurrentFutureId()
    ensures IsTrace(requests, trace) && trace[0] == old(Now(store)) && trace[|requests|] == Now(store)
  {
    trace := [Now(store)];
    assert requests[..0] == [];
    for i := 0 to |requests|
      invariant store.Valid() && Since(old(Infos(store.records)), Infos(store.records), old(store.CurrentFutureId()))
      invariant old(store.nextFutureId) <= store.nextFutureId
      invariant IsTrace(requests[..i], trace) && trace[0] == old(Now(store)) && trace[i] == Now(store)
      invariant forall k :: k in store.records ==> store.records[k] in old(Objects(store.records)) || fresh(store.records[k])
    {
      ServeOne(store, requests[i]);
      TraceNext(requests, i, trace, Now(store));
      trace := trace + [Now(store)];
    }
    assert requests[..|requests|] == requests;
  }

  // A request id is generated anew for every request; completing an unknown one does nothing.
  method ServeOne(store: FutureStore, request: Request)
    requires store.Valid()
    modifies store, Objects(store.records)
    ensures store.Valid() && Since(old(Infos(store.records)), Infos(store.records), old(store.CurrentFutureId()))
    ensures old(store.nextFutureId) <= store.nextFutureId
    ensures Served(request, old(Infos(store.records)), old(Views(store.records)), old(store.nextFutureId),
                   Infos(store.records), Views(store.records), store.nextFutureId)
    ensures forall k :: k in store.records ==> store.records[k] in old(Objects(store.records)) || fresh(store.records[k])
  {
    match request {
      case Arrive(requestId, modelId, operation) =>
        if requestId !in store.records {
          var _ := store.Enqueue(requestId, modelId, operation);
        }
      case Succeed(requestId, payload) =>
        store.MarkReady(requestId, payload);
      case Break(requestId, reason) =>
        store.MarkFailed(requestId, reason);
    }
  }
}
