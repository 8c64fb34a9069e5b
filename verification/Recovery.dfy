// What becomes of the futures and of the training runs when the server restarts
// (src/tuft/state.py, src/tuft/training_controller.py).
module Recovery {
  import opened Wrappers
  import opened Futures

  // ---------- What a restart does to every future ----------

  datatype Ckpt = Ckpt(id: string, futureId: int, createdAt: int)

  datatype Fate = CorruptedRun | DisabledRun | RestoredRun(checkpoint: Option<Ckpt>)

  function RunStep(v: View, futureId: int, fate: Fate): View {
    match fate
    case CorruptedRun => if v.status == Pending then Fail(v, RunCorrupted) else v
    case DisabledRun => if v.status == Pending then Fail(v, CapabilityDisabled) else v
    case RestoredRun(None) => Fail(v, NoCheckpoint)
    case RestoredRun(Some(c)) => if futureId > c.futureId then Fail(v, AfterCheckpoint(c.id)) else v
  }

  function FateStep(i: Info, v: View, fates: map<string, Fate>): View {
    if i.modelId.Some? && i.modelId.value in fates then RunStep(v, i.futureId, fates[i.modelId.value]) else v
  }

  function Final(i: Info, v: View, fates: map<string, Fate>): View {
    FateStep(i, SampleStep(i, v), fates)
  }

  // Exactly which futures stay pending: no sample, and no run that would settle it.
  lemma PendingExactly(i: Info, v: View, fates: map<string, Fate>)
    ensures Final(i, v, fates).status == Pending <==>
            && v.status == Pending && i.operation != Some("sample")
            && (i.modelId.None? || i.modelId.value !in fates ||
                (fates[i.modelId.value].RestoredRun? && fates[i.modelId.value].checkpoint.Some?
                 && i.futureId <= fates[i.modelId.value].checkpoint.value.futureId))
  {
  }

  // Exactly which finished results stay retrievable.
  lemma ReadyKeptExactly(i: Info, v: View, fates: map<string, Fate>)
    requires v.status == Ready
    ensures Final(i, v, fates) == v <==>
            !(i.modelId.Some? && i.modelId.value in fates && fates[i.modelId.value].RestoredRun?
              && (fates[i.modelId.value].checkpoint.None? || i.futureId > fates[i.modelId.value].checkpoint.value.futureId))
  {
  }

  // ---------- Restoring one run ----------

  // known: the base model is served, or configured with training disabled.
  datatype Run = Run(modelId: string, checkpoints: seq<Ckpt>, hasBackend: bool, known: bool, legacy: bool, geometryOk: bool, alphaOk: bool,
                     corrupted: bool, adapter: bool)

  // Whether the backend calls succeed.
  datatype Outcome = Outcome(firstLoad: bool, create: bool, secondLoad: bool, remove: bool)

  // _restore_from_redis: what becomes of a run's record when it is read back.
  function Reload(run: Run): Run {
    run.(corrupted := run.corrupted || run.legacy || (!run.hasBackend && !run.known), adapter := false)
  }

  ghost predicate Loaded(run: Run) {
    run.legacy || (!run.hasBackend && !run.known) ==> run.corrupted
  }

  ghost predicate FirstOfNewest(cs: seq<Ckpt>, c: Ckpt) {
    exists i :: 0 <= i < |cs| && cs[i] == c && NewestAt(cs, i)
  }

  ghost predicate NewestAt(cs: seq<Ckpt>, i: nat)
    requires i < |cs|
  {
    forall j :: 0 <= j < |cs| ==> if j < i then cs[j].createdAt < cs[i].createdAt else cs[j].createdAt <= cs[i].createdAt
  }

  function Latest(cs: seq<Ckpt>): (r: Option<Ckpt>)
    ensures r == None <==> cs == []
    ensures r.Some? ==> FirstOfNewest(cs, r.value)
  {
    if cs == [] then None
    else
      var n := |cs| - 1;
      var before := Latest(cs[..n]);
      if before.Some? && before.value.createdAt >= cs[n].createdAt then
        assert FirstOfNewest(cs, before.value) by { StillNewest(cs, before.value); }
        before
      else
        assert NewestAt(cs, n);
        Some(cs[n])
  }

  lemma StillNewest(cs: seq<Ckpt>, c: Ckpt)
    requires cs != [] && FirstOfNewest(cs[..|cs| - 1], c) && c.createdAt >= cs[|cs| - 1].createdAt
    ensures FirstOfNewest(cs, c)
  {
    var init := cs[..|cs| - 1];
    var i :| 0 <= i < |init| && init[i] == c && NewestAt(init, i);
    forall j | 0 <= j < |cs|
      ensures if j < i then cs[j].createdAt < cs[i].createdAt else cs[j].createdAt <= cs[i].createdAt
    {
      assert j < |init| ==> init[j] == cs[j];
    }
    assert NewestAt(cs, i);
  }

  // max(..., key=created_at).
  method LatestCheckpoint(cs: seq<Ckpt>) returns (r: Option<Ckpt>)
    ensures r == Latest(cs)
  {
    r := None;
    for i := 0 to |cs|
      invariant r == Latest(cs[..i])
    {
      assert cs[..i + 1][..i] == cs[..i];
      if r == None || cs[i].createdAt > r.value.createdAt {
        r := Some(cs[i]);
      }
    }
    assert cs[..|cs|] == cs;
  }

  // The restore leaves the run marked corrupted, in memory and in the store.
  predicate Corrupts(run: Run, out: Outcome) {
    && run.hasBackend && !run.corrupted
    && (run.legacy || !run.geometryOk || (run.checkpoints != [] && (!run.alphaOk || (!out.firstLoad && !out.secondLoad))))
  }

  // restore_from_checkpoint: whatever happens to the adapter, the newest checkpoint is
  // returned, so that only the futures after it fail.
  method RestoreFromCheckpoint(run: Run, out: Outcome) returns (r: Option<Ckpt>, run': Run)
    ensures r == if !run.hasBackend || run.legacy then None else Latest(run.checkpoints)
    ensures run' == run.(corrupted := run'.corrupted, adapter := run'.adapter)
    ensures run'.corrupted <==> run.corrupted || Corrupts(run, out)
    ensures !run.hasBackend ==> run' == run
    ensures run.hasBackend && (run.legacy || !run.geometryOk) ==> run'.corrupted
    ensures run.hasBackend && run.checkpoints != [] && (!run.alphaOk || (!out.firstLoad && !out.secondLoad)) ==> run'.corrupted
    ensures run'.corrupted && !run.corrupted ==>
              run.legacy || !run.geometryOk || (run.checkpoints != [] && (!run.alphaOk || (!out.firstLoad && !out.secondLoad)))
    ensures run.hasBackend && !run.corrupted && !run.adapter && run'.corrupted && out.remove ==> !run'.adapter
    ensures run.hasBackend && !run.corrupted && !run'.corrupted && run.checkpoints != [] ==> run'.adapter
    ensures run.hasBackend && !run.corrupted && !run'.corrupted && run.checkpoints == [] ==> run'.adapter == (run.adapter || out.create)
  {
    run' := run;
    if !run.hasBackend {
      return None, run';
    }
    if run.legacy {
      return None, run'.(corrupted := true);
    }
    r := LatestCheckpoint(run.checkpoints);
    if !run.geometryOk {
      return r, run'.(corrupted := true);
    }
    if r == None {
      return r, run'.(adapter := run.adapter || out.create);
    }
    if !run.alphaOk {
      return r, run'.(corrupted := true);
    }
    if out.firstLoad {
      return r, run'.(adapter := true);
    }
    var recreated := out.create;
    run' := run'.(adapter := run.adapter || recreated);
    if out.secondLoad {
      return r, run'.(adapter := true);
    }
    run' := run'.(corrupted := true);
    if recreated && out.remove {
      run' := run'.(adapter := false);
    }
  }

  // ---------- Recovering every run ----------

  function FateOf(run: Run): Fate {
    if run.corrupted then CorruptedRun
    else if !run.hasBackend then DisabledRun
    else RestoredRun(if run.legacy then None else Latest(run.checkpoints))
  }

  function Fates(runs: seq<Run>): map<string, Fate> {
    if runs == [] then map[] else Fates(runs[..|runs| - 1])[runs[|runs| - 1].modelId := FateOf(runs[|runs| - 1])]
  }

  // What the store holds at some moment: the futures, and the runs' corrupted flags.
  datatype Point = Point(saved: map<string, Saved>, corrupted: map<string, bool>)

  // Where one future of a run may stand when the process dies: the run's flag is
  // written before the first of its futures is settled.
  ghost predicate RunMoment(i: Info, v: View, s: Saved, run: Run, out: Outcome, flag: bool) {
    var w := SampleStep(i, v);
    || (flag == run.corrupted && (s == SavedOf(i, v) || s == SavedOf(i, w)))
    || (flag == (run.corrupted || Corrupts(run, out)) && (s == SavedOf(i, w) || s == SavedOf(i, RunStep(w, i.futureId, FateOf(run)))))
  }

  ghost predicate FutureMoment(i: Info, v: View, s: Saved, runs: seq<Run>, outs: seq<Outcome>, corrupted: map<string, bool>)
    requires |outs| == |runs|
  {
    if i.modelId.Some? && exists j :: 0 <= j < |runs| && runs[j].modelId == i.modelId.value then
      forall j :: 0 <= j < |runs| && runs[j].modelId == i.modelId.value ==>
                    runs[j].modelId in corrupted && RunMoment(i, v, s, runs[j], outs[j], corrupted[runs[j].modelId])
    else s == SavedOf(i, v) || s == SavedOf(i, SampleStep(i, v))
  }

  ghost predicate Moment(infos: map<string, Info>, views: map<string, View>, runs: seq<Run>, outs: seq<Outcome>, p: Point)
    requires |outs| == |runs|
  {
    && infos.Keys == views.Keys == p.saved.Keys
    && forall k :: k in infos ==> FutureMoment(infos[k], views[k], p.saved[k], runs, outs, p.corrupted)
  }

  // The flags once the first j runs have been restored.
  ghost predicate FlagsAfter(corrupted: map<string, bool>, runs: seq<Run>, outs: seq<Outcome>, j: int)
    requires |outs| == |runs|
  {
    forall l :: 0 <= l < |runs| ==>
                  runs[l].modelId in corrupted
                  && corrupted[runs[l].modelId] == (runs[l].corrupted || (l < j && Corrupts(runs[l], outs[l])))
  }

  ghost predicate AllMoments(infos: map<string, Info>, views: map<string, View>, runs: seq<Run>, outs: seq<Outcome>, points: seq<Point>)
    requires |outs| == |runs|
  {
    forall n :: 0 <= n < |points| ==> Moment(infos, views, runs, outs, points[n])
  }

  // The content at the start of a stretch of marking and those it wrote, with the flags as they stood.
  ghost function Stretch(disk: map<string, Saved>, before: seq<map<string, Saved>>, after: seq<map<string, Saved>>,
                         corrupted: map<string, bool>): (points: seq<Point>)
    requires before <= after
    ensures |points| == 1 + |after| - |before| && points[0] == Point(disk, corrupted)
    ensures forall n :: |before| <= n < |after| ==> points[1 + n - |before|] == Point(after[n], corrupted)
  {
    [Point(disk, corrupted)] + seq(|after| - |before|, n requires 0 <= n < |after| - |before| => Point(after[|before| + n], corrupted))
  }

  ghost predicate Shows(points: seq<Point>, disk: map<string, Saved>) {
    exists m :: 0 <= m < |points| && points[m].saved == disk
  }

  // Every content the futures' store has had since is among the points.
  ghost predicate Covered(before: seq<map<string, Saved>>, after: seq<map<string, Saved>>, points: seq<Point>) {
    before <= after && forall n :: |before| <= n < |after| ==> Shows(points, after[n])
  }

  // ServerState._restore_from_checkpoints: every run in turn, in whatever order they are
  // kept; `points` are the contents of the store from the first moment to the last.
  method Recover(store: FutureStore, runs: seq<Run>, outcomes: seq<Outcome>) returns (runs': seq<Run>, ghost points: seq<Point>)
    requires store.Valid() && |outcomes| == |runs| && DistinctIds(runs)
    modifies store`persisted, store`trail, Objects(store.records)
    ensures store.Valid()
    ensures Pointwise(Infos(store.records), old(Views(store.records)), Views(store.records), FinalFor(Fates(runs)))
    ensures SettledByRuns(Infos(store.records), old(Views(store.records)), Views(store.records), runs)
    ensures Updated(runs, outcomes, runs')
    ensures AllMoments(Infos(store.records), old(Views(store.records)), runs, outcomes, points)
    ensures points != [] && points[0] == Point(old(store.persisted), FlagsOf(runs))
    ensures Covered(old(store.trail), store.trail, points)
  {
    ghost var infos, views, start, disk := Infos(store.records), Views(store.records), store.trail, store.persisted;
    ghost var flags;
    flags, points := BeginRecovery(store, runs, outcomes);
    runs' := [];
    for j := 0 to |runs|
      invariant store.Valid() && |runs'| == j
      invariant Recovering(infos, views, Views(store.records), runs, outcomes, runs', flags, points, start, store.trail, disk)
    {
      var run';
      run', flags, points := RecoverNext(store, runs, outcomes, runs', infos, views, flags, points, start, disk);
      runs' := runs' + [run'];
    }
    assert runs[..|runs|] == runs && outcomes[..|runs|] == outcomes;
    FinalsSettle(infos, views, Views(store.records), runs);
  }

  // ---------- What becomes of every future, by its run's own fields ----------

  ghost predicate AwaitsSample(i: Info, v: View) {
    v.status == Pending && i.operation == Some("sample")
  }

  // Failed for this reason; a payload it had stays where it is.
  ghost predicate FailedFor(v: View, reason: Reason, v': View) {
    v' == View(Failed, Some(reason), v.payload, true)
  }

  // As it was, but for a sample that was still running.
  ghost predicate Spared(i: Info, v: View, v': View) {
    if AwaitsSample(i, v) then FailedFor(v, SampleInterrupted, v') else v' == v
  }

  ghost predicate PendingFailedFor(i: Info, v: View, reason: Reason, v': View) {
    if v.status == Pending && !AwaitsSample(i, v) then FailedFor(v, reason, v') else Spared(i, v, v')
  }

  ghost predicate SettledByRun(run: Run, i: Info, v: View, v': View) {
    && (run.corrupted ==> PendingFailedFor(i, v, RunCorrupted, v'))
    && (!run.corrupted && !run.hasBackend ==> PendingFailedFor(i, v, CapabilityDisabled, v'))
    && (!run.corrupted && run.hasBackend && (run.legacy || run.checkpoints == []) ==> FailedFor(v, NoCheckpoint, v'))
    && (!run.corrupted && run.hasBackend && !run.legacy && run.checkpoints != [] ==>
          exists n :: 0 <= n < |run.checkpoints| && NewestAt(run.checkpoints, n)
                      && if i.futureId > run.checkpoints[n].futureId then FailedFor(v, AfterCheckpoint(run.checkpoints[n].id), v')
                         else Spared(i, v, v'))
  }

  ghost predicate SettledByRuns(infos: map<string, Info>, views: map<string, View>, views': map<string, View>, runs: seq<Run>) {
    && infos.Keys == views.Keys == views'.Keys
    && (forall k, j :: k in infos && 0 <= j < |runs| && infos[k].modelId == Some(runs[j].modelId) ==>
                         SettledByRun(runs[j], infos[k], views[k], views'[k]))
    && (forall k :: k in infos && (forall j :: 0 <= j < |runs| ==> infos[k].modelId != Some(runs[j].modelId)) ==>
                      Spared(infos[k], views[k], views'[k]))
  }

  // A fate read off the run's fields settles the future as those fields say.
  lemma FateSays(run: Run, i: Info, v: View)
    ensures SettledByRun(run, i, v, RunStep(SampleStep(i, v), i.futureId, FateOf(run)))
  {
    if !run.corrupted && run.hasBackend && !run.legacy && run.checkpoints != [] {
      var n :| 0 <= n < |run.checkpoints| && run.checkpoints[n] == Latest(run.checkpoints).value && NewestAt(run.checkpoints, n);
    }
  }

  lemma FinalsSettle(infos: map<string, Info>, views: map<string, View>, views': map<string, View>, runs: seq<Run>)
    requires DistinctIds(runs) && infos.Keys == views.Keys && Pointwise(infos, views, views', FinalFor(Fates(runs)))
    ensures SettledByRuns(infos, views, views', runs)
  {
    assert runs[..|runs|] == runs;
    FatesKeys(runs);
    forall k, j | k in infos && 0 <= j < |runs| && infos[k].modelId == Some(runs[j].modelId)
      ensures SettledByRun(runs[j], infos[k], views[k], views'[k])
    {
      OneRunPoint(runs, |runs|, j);
      FateSays(runs[j], infos[k], views[k]);
    }
  }

  // Only one position is the newest.
  lemma OneNewest(cs: seq<Ckpt>, m: nat, n: nat)
    requires m < |cs| && n < |cs| && NewestAt(cs, m) && NewestAt(cs, n)
    ensures m == n
  {
    var a, b := cs[m].createdAt, cs[n].createdAt;
    assert !(m < n) || a < b;
    assert !(n < m) || b < a;
  }

  // The runs as they are left.
  ghost predicate Updated(runs: seq<Run>, outs: seq<Outcome>, runs': seq<Run>)
    requires |outs| == |runs|
  {
    && |runs'| == |runs|
    && forall j :: 0 <= j < |runs| ==>
                     && runs'[j] == runs[j].(corrupted := runs'[j].corrupted, adapter := runs'[j].adapter)
                     && (runs'[j].corrupted <==> runs[j].corrupted || Corrupts(runs[j], outs[j]))
  }

  // The recovery once the runs in runs' are settled.
  ghost predicate Recovering(infos: map<string, Info>, views: map<string, View>, now: map<string, View>, runs: seq<Run>, outs: seq<Outcome>,
                             runs': seq<Run>, flags: map<string, bool>, points: seq<Point>, start: seq<map<string, Saved>>,
                             trail: seq<map<string, Saved>>, disk: map<string, Saved>) {
    && |runs'| <= |runs| == |outs|
    && Pointwise(infos, views, now, FinalFor(Fates(runs[..|runs'|])))
    && Updated(runs[..|runs'|], outs[..|runs'|], runs') && FlagsAfter(flags, runs, outs, |runs'|)
    && AllMoments(infos, views, runs, outs, points) && Covered(start, trail, points)
    && points != [] && points[0] == Point(disk, FlagsOf(runs))
  }

  method BeginRecovery(store: FutureStore, ghost runs: seq<Run>, ghost outs: seq<Outcome>) returns (ghost flags: map<string, bool>, ghost points: seq<Point>)
    requires store.Valid() && |outs| == |runs| && DistinctIds(runs)
    modifies store`persisted, store`trail, Objects(store.records)
    ensures store.Valid()
    ensures Recovering(Infos(store.records), old(Views(store.records)), Views(store.records), runs, outs, [], flags, points,
                       old(store.trail), store.trail, old(store.persisted))
  {
    ghost var infos, views, start, disk := Infos(store.records), Views(store.records), store.trail, store.persisted;
    flags := FlagsOf(runs);
    FlagsAtStart(runs, outs);
    SettleSamples(store);
    points := Stretch(disk, start, store.trail, flags);
    SamplePoints(infos, views, runs, outs, disk, start, store.trail, flags);
    assert runs[..0] == [];
  }

  method RecoverNext(store: FutureStore, runs: seq<Run>, outs: seq<Outcome>, runs': seq<Run>, ghost infos: map<string, Info>,
                     ghost views: map<string, View>, ghost flags: map<string, bool>, ghost points: seq<Point>,
                     ghost start: seq<map<string, Saved>>, ghost disk: map<string, Saved>)
    returns (run': Run, ghost flags': map<string, bool>, ghost points': seq<Point>)
    requires store.Valid() && Infos(store.records) == infos && |runs'| < |runs| && DistinctIds(runs)
    requires Recovering(infos, views, Views(store.records), runs, outs, runs', flags, points, start, store.trail, disk)
    modifies store`persisted, store`trail, Objects(store.records)
    ensures store.Valid()
    ensures Recovering(infos, views, Views(store.records), runs, outs, runs' + [run'], flags', points', start, store.trail, disk)
  {
    var j := |runs'|;
    ghost var before, trail, now := Views(store.records), store.trail, store.persisted;
    run' := SettleRun(store, runs[j], outs[j]);
    flags' := flags[runs[j].modelId := run'.corrupted];
    points' := points + Stretch(now, trail, store.trail, flags');
    RunRecovered(infos, views, before, Views(store.records), runs, outs, runs', run', flags, points, start, now, trail, store.trail, disk);
  }

  lemma RunRecovered(infos: map<string, Info>, views: map<string, View>, before: map<string, View>, after: map<string, View>, runs: seq<Run>,
                     outs: seq<Outcome>, runs': seq<Run>, run': Run, flags: map<string, bool>, points: seq<Point>,
                     start: seq<map<string, Saved>>, now: map<string, Saved>, trail: seq<map<string, Saved>>,
                     trail': seq<map<string, Saved>>, disk: map<string, Saved>)
    requires Recovering(infos, views, before, runs, outs, runs', flags, points, start, trail, disk)
    requires |runs'| < |runs| && DistinctIds(runs) && Settled(infos, before, now)
    requires run' == runs[|runs'|].(corrupted := run'.corrupted, adapter := run'.adapter)
    requires run'.corrupted <==> runs[|runs'|].corrupted || Corrupts(runs[|runs'|], outs[|runs'|])
    requires Pointwise(infos, before, after, RunFor(runs[|runs'|].modelId, FateOf(runs[|runs'|])))
    requires PartlyDone(infos, before, RunFor(runs[|runs'|].modelId, FateOf(runs[|runs'|])), trail, trail')
    ensures var flags' := flags[runs[|runs'|].modelId := run'.corrupted];
            Recovering(infos, views, after, runs, outs, runs' + [run'], flags', points + Stretch(now, trail, trail', flags'), start, trail', disk)
  {
    var j := |runs'|;
    var flags' := flags[runs[j].modelId := run'.corrupted];
    FateAdded(infos, views, before, after, runs, j);
    FlagSet(flags, flags', runs, outs, j);
    RunPoints(infos, views, before, runs, outs, j, now, trail, trail', flags');
    MorePoints(infos, views, runs, outs, start, now, trail, trail', points, flags');
    UpdatedNext(runs, outs, runs', run');
  }

  lemma UpdatedNext(runs: seq<Run>, outs: seq<Outcome>, runs': seq<Run>, run': Run)
    requires |runs'| < |runs| == |outs| && Updated(runs[..|runs'|], outs[..|runs'|], runs')
    requires run' == runs[|runs'|].(corrupted := run'.corrupted, adapter := run'.adapter)
    requires run'.corrupted <==> runs[|runs'|].corrupted || Corrupts(runs[|runs'|], outs[|runs'|])
    ensures Updated(runs[..|runs'| + 1], outs[..|runs'| + 1], runs' + [run'])
  {
    forall l | 0 <= l < |runs'|
      ensures runs[..|runs'|][l] == runs[..|runs'| + 1][l] && outs[..|runs'|][l] == outs[..|runs'| + 1][l]
    {
    }
  }

  function FlagsOf(runs: seq<Run>): map<string, bool> {
    if runs == [] then map[] else FlagsOf(runs[..|runs| - 1])[runs[|runs| - 1].modelId := runs[|runs| - 1].corrupted]
  }

  lemma {:induction false} FlagsAtStart(runs: seq<Run>, outs: seq<Outcome>)
    requires |outs| == |runs| && DistinctIds(runs)
    ensures FlagsAfter(FlagsOf(runs), runs, outs, 0)
  {
    if runs != [] {
      var n := |runs| - 1;
      FlagsAtStart(runs[..n], outs[..n]);
      forall l | 0 <= l < |runs|
        ensures runs[l].modelId in FlagsOf(runs) && FlagsOf(runs)[runs[l].modelId] == runs[l].corrupted
      {
        if l < n {
          assert runs[..n][l] == runs[l];
        }
      }
    }
  }

  lemma FlagSet(corrupted: map<string, bool>, flags: map<string, bool>, runs: seq<Run>, outs: seq<Outcome>, j: nat)
    requires |outs| == |runs| && j < |runs| && DistinctIds(runs) && FlagsAfter(corrupted, runs, outs, j)
    requires flags == corrupted[runs[j].modelId := runs[j].corrupted || Corrupts(runs[j], outs[j])]
    ensures FlagsAfter(flags, runs, outs, j + 1)
  {
  }

  // A content written while the samples are settled.
  lemma SamplePoint(infos: map<string, Info>, views: map<string, View>, runs: seq<Run>, outs: seq<Outcome>, disk: map<string, Saved>,
                    corrupted: map<string, bool>)
    requires |outs| == |runs| && FlagsAfter(corrupted, runs, outs, 0) && Partly(infos, views, SampleStep, disk)
    ensures Moment(infos, views, runs, outs, Point(disk, corrupted))
  {
    forall k | k in infos
      ensures FutureMoment(infos[k], views[k], disk[k], runs, outs, corrupted)
    {
    }
  }

  lemma SamplePoints(infos: map<string, Info>, views: map<string, View>, runs: seq<Run>, outs: seq<Outcome>, disk: map<string, Saved>,
                     before: seq<map<string, Saved>>, after: seq<map<string, Saved>>, corrupted: map<string, bool>)
    requires |outs| == |runs| && FlagsAfter(corrupted, runs, outs, 0)
    requires Settled(infos, views, disk) && PartlyDone(infos, views, SampleStep, before, after)
    ensures AllMoments(infos, views, runs, outs, Stretch(disk, before, after, corrupted))
    ensures Covered(before, after, Stretch(disk, before, after, corrupted))
  {
    var points := Stretch(disk, before, after, corrupted);
    assert Partly(infos, views, SampleStep, disk);
    forall n | 0 <= n < |points|
      ensures Moment(infos, views, runs, outs, points[n])
    {
      if n > 0 {
        assert points[n] == Point(after[|before| + n - 1], corrupted);
        assert Partly(infos, views, SampleStep, after[|before| + n - 1]);
        SamplePoint(infos, views, runs, outs, after[|before| + n - 1], corrupted);
      } else {
        SamplePoint(infos, views, runs, outs, disk, corrupted);
      }
    }
    StretchCovers(disk, before, after, corrupted);
  }

  lemma StretchCovers(disk: map<string, Saved>, before: seq<map<string, Saved>>, after: seq<map<string, Saved>>, corrupted: map<string, bool>)
    requires before <= after
    ensures Covered(before, after, Stretch(disk, before, after, corrupted))
  {
    var points := Stretch(disk, before, after, corrupted);
    forall n | |before| <= n < |after|
      ensures Shows(points, after[n])
    {
      assert points[1 + n - |before|].saved == after[n];
    }
  }

  // A content written while run j's futures are settled.
  lemma RunPoint(infos: map<string, Info>, views: map<string, View>, before: map<string, View>, runs: seq<Run>, outs: seq<Outcome>, j: nat,
                 disk: map<string, Saved>, flags: map<string, bool>)
    requires |outs| == |runs| && j < |runs| && DistinctIds(runs) && FlagsAfter(flags, runs, outs, j + 1)
    requires Pointwise(infos, views, before, FinalFor(Fates(runs[..j])))
    requires Partly(infos, before, RunFor(runs[j].modelId, FateOf(runs[j])), disk)
    ensures Moment(infos, views, runs, outs, Point(disk, flags))
  {
    forall k | k in infos
      ensures FutureMoment(infos[k], views[k], disk[k], runs, outs, flags)
    {
      var i, v := infos[k], views[k];
      assert before[k] == Final(i, v, Fates(runs[..j]));
      if i.modelId.Some? {
        FatesKeys(runs[..j]);
        forall l | 0 <= l < |runs| && runs[l].modelId == i.modelId.value
          ensures RunMoment(i, v, disk[k], runs[l], outs[l], flags[runs[l].modelId])
        {
          OneRunPoint(runs, j, l);
        }
      }
    }
  }

  // Run l's fate among those of the first j runs.
  lemma OneRunPoint(runs: seq<Run>, j: nat, l: nat)
    requires j <= |runs| && l < |runs| && DistinctIds(runs)
    ensures runs[l].modelId in Fates(runs[..j]) <==> l < j
    ensures l < j ==> Fates(runs[..j])[runs[l].modelId] == FateOf(runs[l])
  {
    FatesKeys(runs[..j]);
    FateLookup(runs[..j], runs[l].modelId);
    if l < j {
      assert runs[..j][l] == runs[l];
      assert runs[l] in runs[..j];
    }
  }

  lemma RunPoints(infos: map<string, Info>, views: map<string, View>, before: map<string, View>, runs: seq<Run>, outs: seq<Outcome>, j: nat,
                  disk: map<string, Saved>, trail: seq<map<string, Saved>>, trail': seq<map<string, Saved>>, flags: map<string, bool>)
    requires |outs| == |runs| && j < |runs| && DistinctIds(runs) && FlagsAfter(flags, runs, outs, j + 1)
    requires Pointwise(infos, views, before, FinalFor(Fates(runs[..j]))) && Settled(infos, before, disk)
    requires PartlyDone(infos, before, RunFor(runs[j].modelId, FateOf(runs[j])), trail, trail')
    ensures AllMoments(infos, views, runs, outs, Stretch(disk, trail, trail', flags))
  {
    var points, f := Stretch(disk, trail, trail', flags), RunFor(runs[j].modelId, FateOf(runs[j]));
    assert Partly(infos, before, f, disk);
    forall n | 0 <= n < |points|
      ensures Moment(infos, views, runs, outs, points[n])
    {
      if n > 0 {
        assert points[n] == Point(trail'[|trail| + n - 1], flags);
        assert Partly(infos, before, f, trail'[|trail| + n - 1]);
        RunPoint(infos, views, before, runs, outs, j, trail'[|trail| + n - 1], flags);
      } else {
        RunPoint(infos, views, before, runs, outs, j, disk, flags);
      }
    }
  }

  lemma MorePoints(infos: map<string, Info>, views: map<string, View>, runs: seq<Run>, outs: seq<Outcome>, start: seq<map<string, Saved>>,
                   disk: map<string, Saved>, trail: seq<map<string, Saved>>, trail': seq<map<string, Saved>>, points: seq<Point>, flags: map<string, bool>)
    requires |outs| == |runs| && start <= trail <= trail'
    requires AllMoments(infos, views, runs, outs, points) && Covered(start, trail, points)
    requires AllMoments(infos, views, runs, outs, Stretch(disk, trail, trail', flags))
    ensures AllMoments(infos, views, runs, outs, points + Stretch(disk, trail, trail', flags))
    ensures Covered(start, trail', points + Stretch(disk, trail, trail', flags))
  {
    var more := Stretch(disk, trail, trail', flags);
    StretchCovers(disk, trail, trail', flags);
    CoveredTogether(start, trail, trail', points, more);
  }

  lemma CoveredTogether(start: seq<map<string, Saved>>, trail: seq<map<string, Saved>>, trail': seq<map<string, Saved>>,
                        points: seq<Point>, more: seq<Point>)
    requires Covered(start, trail, points) && Covered(trail, trail', more)
    ensures Covered(start, trail', points + more)
  {
    var all := points + more;
    forall n | |start| <= n < |trail'|
      ensures Shows(all, trail'[n])
    {
      if n < |trail| {
        assert trail'[n] == trail[n];
        assert Shows(points, trail[n]);
        var m :| 0 <= m < |points| && points[m].saved == trail[n];
        assert all[m].saved == trail'[n];
      } else {
        assert Shows(more, trail'[n]);
        var m :| 0 <= m < |more| && more[m].saved == trail'[n];
        assert all[|points| + m].saved == trail'[n];
      }
    }
    PrefixOfPrefix(start, trail, trail');
  }

  lemma PrefixOfPrefix<T>(a: seq<T>, b: seq<T>, c: seq<T>)
    requires a <= b <= c
    ensures a <= c
  {
    forall n | 0 <= n < |a|
      ensures a[n] == c[n]
    {
      assert a[n] == b[n] && b[n] == c[n];
    }
  }

  method SettleSamples(store: FutureStore)
    requires store.Valid()
    modifies store`persisted, store`trail, Objects(store.records)
    ensures store.Valid()
    ensures Pointwise(Infos(store.records), old(Views(store.records)), Views(store.records), FinalFor(Fates([])))
    ensures PartlyDone(Infos(store.records), old(Views(store.records)), SampleStep, old(store.trail), store.trail)
  {
    store.MarkPendingSamplesFailed();
    NoRunsYet(Infos(store.records), old(Views(store.records)), Views(store.records));
  }

  lemma NoRunsYet(infos: map<string, Info>, views: map<string, View>, views': map<string, View>)
    requires Pointwise(infos, views, views', SampleStep)
    ensures Pointwise(infos, views, views', FinalFor(Fates([])))
  {
    forall k | k in views
      ensures views'[k] == Final(infos[k], views[k], Fates([]))
    {
    }
  }

  ghost function FinalFor(fates: map<string, Fate>): (Info, View) -> View {
    (i, v) => Final(i, v, fates)
  }

  ghost function RunFor(modelId: string, fate: Fate): (Info, View) -> View {
    (i: Info, v: View) => if i.modelId == Some(modelId) then RunStep(v, i.futureId, fate) else v
  }

  ghost predicate DistinctIds(runs: seq<Run>) {
    forall i, j :: 0 <= i < j < |runs| ==> runs[i].modelId != runs[j].modelId
  }

  // The run's flag is up to date in the store before the first of its futures changes.
  method SettleRun(store: FutureStore, run: Run, outcome: Outcome) returns (run': Run)
    requires store.Valid()
    modifies store`persisted, store`trail, Objects(store.records)
    ensures store.Valid()
    ensures Pointwise(Infos(store.records), old(Views(store.records)), Views(store.records), RunFor(run.modelId, FateOf(run)))
    ensures PartlyDone(Infos(store.records), old(Views(store.records)), RunFor(run.modelId, FateOf(run)), old(store.trail), store.trail)
    ensures run' == run.(corrupted := run'.corrupted, adapter := run'.adapter)
    ensures run'.corrupted <==> run.corrupted || Corrupts(run, outcome)
  {
    run' := run;
    if run.corrupted {
      FailPending(store, run, RunCorrupted);
    } else if !run.hasBackend {
      FailPending(store, run, CapabilityDisabled);
    } else {
      var latest;
      latest, run' := RestoreFromCheckpoint(run, outcome);
      FailLater(store, run, latest);
    }
  }

  method FailPending(store: FutureStore, run: Run, reason: Reason)
    requires store.Valid()
    requires FateOf(run) == (if reason == RunCorrupted then CorruptedRun else DisabledRun) && reason in {RunCorrupted, CapabilityDisabled}
    modifies store`persisted, store`trail, Objects(store.records)
    ensures store.Valid()
    ensures Pointwise(Infos(store.records), old(Views(store.records)), Views(store.records), RunFor(run.modelId, FateOf(run)))
    ensures PartlyDone(Infos(store.records), old(Views(store.records)), RunFor(run.modelId, FateOf(run)), old(store.trail), store.trail)
  {
    PendingIsRunStep(run, reason);
    store.MarkModelPendingFailed(Some(run.modelId), reason);
    SameEffect(Infos(store.records), old(Views(store.records)), Views(store.records), PendingOf(Some(run.modelId), reason),
               RunFor(run.modelId, FateOf(run)), old(store.trail), store.trail);
  }

  method FailLater(store: FutureStore, run: Run, latest: Option<Ckpt>)
    requires store.Valid() && FateOf(run) == RestoredRun(latest)
    modifies store`persisted, store`trail, Objects(store.records)
    ensures store.Valid()
    ensures Pointwise(Infos(store.records), old(Views(store.records)), Views(store.records), RunFor(run.modelId, FateOf(run)))
    ensures PartlyDone(Infos(store.records), old(Views(store.records)), RunFor(run.modelId, FateOf(run)), old(store.trail), store.trail)
  {
    var id := if latest == None then None else Some(latest.value.futureId);
    var reason := if latest == None then NoCheckpoint else AfterCheckpoint(latest.value.id);
    LaterIsRunStep(run, latest, id, reason);
    store.MarkFailedAfterCheckpoint(Some(run.modelId), id, reason);
    SameEffect(Infos(store.records), old(Views(store.records)), Views(store.records), LaterThan(Some(run.modelId), id, reason),
               RunFor(run.modelId, FateOf(run)), old(store.trail), store.trail);
  }

  ghost predicate Alike(f: (Info, View) -> View, g: (Info, View) -> View) {
    forall i: Info, v: View :: f(i, v) == g(i, v)
  }

  lemma PendingIsRunStep(run: Run, reason: Reason)
    requires FateOf(run) == (if reason == RunCorrupted then CorruptedRun else DisabledRun) && reason in {RunCorrupted, CapabilityDisabled}
    ensures Alike(PendingOf(Some(run.modelId), reason), RunFor(run.modelId, FateOf(run)))
  {
  }

  lemma LaterIsRunStep(run: Run, latest: Option<Ckpt>, id: Option<int>, reason: Reason)
    requires FateOf(run) == RestoredRun(latest)
    requires id == if latest == None then None else Some(latest.value.futureId)
    requires reason == if latest == None then NoCheckpoint else AfterCheckpoint(latest.value.id)
    ensures Alike(LaterThan(Some(run.modelId), id, reason), RunFor(run.modelId, FateOf(run)))
  {
  }

  lemma SameEffect(infos: map<string, Info>, views: map<string, View>, views': map<string, View>, f: (Info, View) -> View,
                   g: (Info, View) -> View, trail: seq<map<string, Saved>>, trail': seq<map<string, Saved>>)
    requires Alike(f, g) && Pointwise(infos, views, views', f) && PartlyDone(infos, views, f, trail, trail')
    ensures Pointwise(infos, views, views', g) && PartlyDone(infos, views, g, trail, trail')
  {
    forall n | |trail| <= n < |trail'|
      ensures Partly(infos, views, g, trail'[n])
    {
      assert Partly(infos, views, f, trail'[n]);
    }
  }

  lemma {:induction false} FatesKeys(runs: seq<Run>)
    ensures forall m :: m in Fates(runs) <==> exists i :: 0 <= i < |runs| && runs[i].modelId == m
  {
    if runs != [] {
      var n := |runs| - 1;
      FatesKeys(runs[..n]);
      forall m
        ensures m in Fates(runs) <==> exists i :: 0 <= i < |runs| && runs[i].modelId == m
      {
        if m in Fates(runs) {
          if m == runs[n].modelId {
            assert runs[n].modelId == m;
          } else {
            assert m in Fates(runs[..n]);
            var i :| 0 <= i < |runs[..n]| && runs[..n][i].modelId == m;
            assert runs[i].modelId == m;
          }
        }
        if i :| 0 <= i < |runs| && runs[i].modelId == m {
          if i < n {
            assert runs[..n][i].modelId == m;
          }
        }
      }
    }
  }

  lemma FateAdded(infos: map<string, Info>, start: map<string, View>, before: map<string, View>, after: map<string, View>, runs: seq<Run>, j: nat)
    requires j < |runs| && DistinctIds(runs)
    requires Pointwise(infos, start, before, FinalFor(Fates(runs[..j])))
    requires Pointwise(infos, before, after, RunFor(runs[j].modelId, FateOf(runs[j])))
    ensures Pointwise(infos, start, after, FinalFor(Fates(runs[..j + 1])))
  {
    FatesKeys(runs[..j]);
    assert runs[..j + 1][..j] == runs[..j];
    var id := runs[j].modelId;
    assert id !in Fates(runs[..j]);
    forall k | k in start
      ensures after[k] == Final(infos[k], start[k], Fates(runs[..j + 1]))
    {
      assert before[k] == Final(infos[k], start[k], Fates(runs[..j]));
    }
  }

  // The order in which the runs are visited does not matter: only who is a run, and its fate.
  lemma {:induction false} FatesIgnoreOrder(runs: seq<Run>, runs': seq<Run>)
    requires DistinctIds(runs) && DistinctIds(runs') && multiset(runs) == multiset(runs')
    ensures Fates(runs) == Fates(runs')
  {
    forall m
      ensures m in Fates(runs) <==> m in Fates(runs')
      ensures m in Fates(runs) ==> Fates(runs)[m] == Fates(runs')[m]
    {
      FateLookup(runs, m);
      FateLookup(runs', m);
      if r :| r in runs && r.modelId == m {
        assert r in multiset(runs) && r in multiset(runs');
      }
      if r :| r in runs' && r.modelId == m {
        assert r in multiset(runs') && r in multiset(runs);
      }
    }
  }

  lemma {:induction false} FateLookup(runs: seq<Run>, m: string)
    requires DistinctIds(runs)
    ensures forall r :: r in runs && r.modelId == m ==> m in Fates(runs) && Fates(runs)[m] == FateOf(r)
    ensures m in Fates(runs) ==> exists r :: r in runs && r.modelId == m
  {
    if runs != [] {
      var n := |runs| - 1;
      FateLookup(runs[..n], m);
      forall r | r in runs && r.modelId == m
        ensures m in Fates(runs) && Fates(runs)[m] == FateOf(r)
      {
        var i :| 0 <= i < |runs| && runs[i] == r;
        if i < n {
          assert runs[..n][i] == r;
        }
      }
      if m in Fates(runs) && m != runs[n].modelId {
        var r :| r in runs[..n] && r.modelId == m;
        assert r in runs;
      }
    }
  }

  // ---------- Dying during a recovery and starting over ----------

  // The run as the next start reads it, with the flag its record was left with.
  function NextRun(run: Run, flag: bool): Run {
    Reload(run.(corrupted := flag))
  }

  function NextFate(run: Run, flag: bool): Fate {
    FateOf(NextRun(run, flag))
  }

  // One future of the run, read back and settled by the next start.
  function Resumed(i: Info, s: Saved, run: Run, flag: bool): View {
    RunStep(SampleStep(i, Revived(s)), i.futureId, NextFate(run, flag))
  }

  // A future that a restore marking its run corrupted leaves as the next start would.
  predicate Untroubled(i: Info, v: View, latest: Option<Ckpt>) {
    var w := SampleStep(i, v);
    match latest
    case None => w.status != Ready
    case Some(c) => if i.futureId > c.futureId then w.status != Ready else w.status != Pending
  }

  ghost predicate EventMatches(v: View) {
    v.eventSet <==> v.status != Pending
  }

  // Dying at any moment and starting over gives a future the status of the uninterrupted
  // recovery exactly when the restore does not mark its run corrupted, or the future is
  // neither finished above the checkpoint nor pending at or below it.
  lemma RestartSettlesAlikeExactly(i: Info, v: View, run: Run, out: Outcome)
    requires Loaded(run) && EventMatches(v)
    ensures (forall s, flag | RunMoment(i, v, s, run, out, flag) ::
               Resumed(i, s, run, flag).status == RunStep(SampleStep(i, v), i.futureId, FateOf(run)).status)
       <==> !Corrupts(run, out) || Untroubled(i, v, Latest(run.checkpoints))
  {
    var w := SampleStep(i, v);
    var settled := RunStep(w, i.futureId, FateOf(run));
    if !Corrupts(run, out) || Untroubled(i, v, Latest(run.checkpoints)) {
      forall s, flag | RunMoment(i, v, s, run, out, flag)
        ensures Resumed(i, s, run, flag).status == settled.status
      {
        assert Revived(SavedOf(i, v)) == v && Revived(SavedOf(i, w)) == w && Revived(SavedOf(i, settled)) == settled;
      }
    } else {
      assert Revived(SavedOf(i, w)) == w;
      assert RunMoment(i, v, SavedOf(i, w), run, out, true);
      assert Resumed(i, SavedOf(i, w), run, true).status != settled.status;
    }
  }

  // ---------- Dying any number of times ----------

  // One recovery that dies: how its backend calls went, and what it left of the future and the run.
  datatype Death = Death(out: Outcome, saved: Saved, flag: bool)

  ghost predicate Interrupted(i: Info, v: View, run: Run, deaths: seq<Death>)
    decreases |deaths|
  {
    deaths == []
    || (RunMoment(i, v, deaths[0].saved, run, deaths[0].out, deaths[0].flag)
        && Interrupted(i, Revived(deaths[0].saved), NextRun(run, deaths[0].flag), deaths[1..]))
  }

  // The recovery after them, completed.
  function AfterAll(i: Info, v: View, run: Run, deaths: seq<Death>): View
    decreases |deaths|
  {
    if deaths == [] then RunStep(SampleStep(i, v), i.futureId, FateOf(run))
    else AfterAll(i, Revived(deaths[0].saved), NextRun(run, deaths[0].flag), deaths[1..])
  }

  ghost predicate Among(deaths: seq<Death>, outs: seq<Outcome>) {
    |deaths| == |outs| && forall n :: 0 <= n < |outs| ==> deaths[n].out == outs[n]
  }

  ghost predicate NoneCorrupts(run: Run, outs: seq<Outcome>) {
    forall n :: 0 <= n < |outs| ==> !Corrupts(run, outs[n])
  }

  // What one death keeps.
  lemma DeathKeepsFate(i: Info, v: View, run: Run, d: Death)
    requires Loaded(run) && EventMatches(v) && RunMoment(i, v, d.saved, run, d.out, d.flag)
    requires !Corrupts(run, d.out) || Untroubled(i, v, Latest(run.checkpoints))
    ensures Loaded(NextRun(run, d.flag)) && EventMatches(Revived(d.saved))
    ensures Resumed(i, d.saved, run, d.flag).status == RunStep(SampleStep(i, v), i.futureId, FateOf(run)).status
    ensures Untroubled(i, v, Latest(run.checkpoints)) ==> Untroubled(i, Revived(d.saved), Latest(run.checkpoints))
    ensures forall out :: !Corrupts(run, out) ==> !Corrupts(NextRun(run, d.flag), out)
  {
    var w := SampleStep(i, v);
    var settled := RunStep(w, i.futureId, FateOf(run));
    RestartSettlesAlikeExactly(i, v, run, d.out);
    assert Revived(SavedOf(i, v)) == v && Revived(SavedOf(i, w)) == w && Revived(SavedOf(i, settled)) == settled;
  }

  lemma {:induction false} AlikeAfterAll(i: Info, v: View, run: Run, outs: seq<Outcome>, deaths: seq<Death>)
    requires Loaded(run) && EventMatches(v) && Interrupted(i, v, run, deaths) && Among(deaths, outs)
    requires NoneCorrupts(run, outs) || Untroubled(i, v, Latest(run.checkpoints))
    ensures AfterAll(i, v, run, deaths).status == RunStep(SampleStep(i, v), i.futureId, FateOf(run)).status
    decreases |deaths|
  {
    if deaths != [] {
      assert deaths[0].out == outs[0];
      DeathKeepsFate(i, v, run, deaths[0]);
      AlikeAfterAll(i, Revived(deaths[0].saved), NextRun(run, deaths[0].flag), outs[1..], deaths[1..]);
    }
  }

  // Dying before anything is written changes nothing; dying after the flag of a corrupted
  // run is written, and before its futures are settled, is what makes the difference.
  lemma {:induction false} TroubledBy(i: Info, v: View, run: Run, outs: seq<Outcome>, n: nat) returns (deaths: seq<Death>)
    requires Loaded(run) && EventMatches(v) && n < |outs| && Corrupts(run, outs[n]) && !Untroubled(i, v, Latest(run.checkpoints))
    ensures Interrupted(i, v, run, deaths) && Among(deaths, outs)
    ensures AfterAll(i, v, run, deaths).status != RunStep(SampleStep(i, v), i.futureId, FateOf(run)).status
    decreases n
  {
    var w := SampleStep(i, v);
    assert Revived(SavedOf(i, v)) == v && Revived(SavedOf(i, w)) == w;
    if n > 0 {
      var rest := TroubledBy(i, v, NextRun(run, run.corrupted), outs[1..], n - 1);
      deaths := [Death(outs[0], SavedOf(i, v), run.corrupted)] + rest;
    } else {
      var rest := CorruptedStays(i, w, NextRun(run, true), outs[1..]);
      deaths := [Death(outs[0], SavedOf(i, w), true)] + rest;
    }
  }

  lemma {:induction false} CorruptedStays(i: Info, v: View, run: Run, outs: seq<Outcome>) returns (deaths: seq<Death>)
    requires run.corrupted && EventMatches(v)
    ensures Interrupted(i, v, run, deaths) && Among(deaths, outs)
    ensures AfterAll(i, v, run, deaths) == RunStep(SampleStep(i, v), i.futureId, CorruptedRun)
    decreases |outs|
  {
    if outs == [] {
      deaths := [];
    } else {
      assert Revived(SavedOf(i, v)) == v;
      var rest := CorruptedStays(i, v, NextRun(run, true), outs[1..]);
      deaths := [Death(outs[0], SavedOf(i, v), true)] + rest;
    }
  }

  // However often recoveries die, the last one gives a future the status of an uninterrupted
  // one, under the same condition on every attempt that died.
  lemma RestartsSettleAlikeExactly(i: Info, v: View, run: Run, outs: seq<Outcome>)
    requires Loaded(run) && EventMatches(v)
    ensures (forall deaths | Interrupted(i, v, run, deaths) && Among(deaths, outs) ::
               AfterAll(i, v, run, deaths).status == RunStep(SampleStep(i, v), i.futureId, FateOf(run)).status)
       <==> NoneCorrupts(run, outs) || Untroubled(i, v, Latest(run.checkpoints))
  {
    if NoneCorrupts(run, outs) || Untroubled(i, v, Latest(run.checkpoints)) {
      forall deaths | Interrupted(i, v, run, deaths) && Among(deaths, outs)
        ensures AfterAll(i, v, run, deaths).status == RunStep(SampleStep(i, v), i.futureId, FateOf(run)).status
      {
        AlikeAfterAll(i, v, run, outs, deaths);
      }
    } else {
      var n :| 0 <= n < |outs| && Corrupts(run, outs[n]);
      var deaths := TroubledBy(i, v, run, outs, n);
    }
  }

  // A second complete recovery of a run the first one marked corrupted fails what the first left pending.
  lemma SecondRecoveryFailsKeptPending(i: Info, v: View, run: Run, out: Outcome)
    requires Loaded(run) && EventMatches(v) && Corrupts(run, out) && Latest(run.checkpoints).Some?
    ensures var settled := RunStep(SampleStep(i, v), i.futureId, FateOf(run));
            Resumed(i, SavedOf(i, settled), run, true).status != settled.status <==>
            SampleStep(i, v).status == Pending && i.futureId <= Latest(run.checkpoints).value.futureId
  {
    var settled := RunStep(SampleStep(i, v), i.futureId, FateOf(run));
    assert Revived(SavedOf(i, settled)) == settled;
  }

  const WITNESS := Run("m", [Ckpt("c", 5, 0)], true, true, false, false, true, false, false)
  const ALL_FAIL := Outcome(false, false, false, false)

  // A pending future at the checkpoint's id survives one recovery and fails in the next.
  lemma PendingSurvivesOneRecoveryOnly()
    ensures var i, v := Info(5, Some("m"), Some("forward")), View(Pending, None, None, false);
            && Loaded(WITNESS) && Corrupts(WITNESS, ALL_FAIL)
            && Final(i, v, Fates([WITNESS])) == v
            && Resumed(i, SavedOf(i, v), WITNESS, true) == Fail(v, RunCorrupted)
  {
    WitnessFates();
  }

  // A finished future above the checkpoint's id survives if the process dies between the
  // saving of the run's flag and the marking of its futures, and fails otherwise.
  lemma ReadySurvivesAnInterruptedRecovery()
    ensures var i, v := Info(6, Some("m"), Some("forward")), View(Ready, None, Some(1), true);
            && RunMoment(i, v, SavedOf(i, v), WITNESS, ALL_FAIL, true)
            && Final(i, v, Fates([WITNESS])) == Fail(v, AfterCheckpoint("c"))
            && Resumed(i, SavedOf(i, v), WITNESS, true) == v
  {
    WitnessFates();
  }

  lemma WitnessFates()
    ensures Fates([WITNESS]) == map["m" := RestoredRun(Some(Ckpt("c", 5, 0)))]
    ensures FateOf(WITNESS) == RestoredRun(Some(Ckpt("c", 5, 0)))
  {
    assert [WITNESS][..0] == [] && Fates([]) == map[];
    assert FirstOfNewest(WITNESS.checkpoints, Latest(WITNESS.checkpoints).value);
  }

  // A new process: read everything back, then recover.
  method Restart(saved: map<string, Saved>, runs: seq<Run>, outcomes: seq<Outcome>) returns (store: FutureStore)
    requires |outcomes| == |runs| && DistinctIds(runs)
    ensures fresh(store) && store.Valid() && AsRestarted(saved, runs, Infos(store.records), Views(store.records))
  {
    store := new FutureStore.Restore(saved);
    var _, _ := Recover(store, runs, outcomes);
  }

  ghost predicate AsRestarted(saved: map<string, Saved>, runs: seq<Run>, infos: map<string, Info>, views: map<string, View>) {
    && infos.Keys == views.Keys == saved.Keys
    && forall k :: k in saved ==> infos[k] == saved[k].info && views[k] == Final(saved[k].info, Revived(saved[k]), Fates(runs))
  }

  // The state a recovery may start from.
  ghost predicate Recoverable(views: map<string, View>, runs: seq<Run>) {
    && DistinctIds(runs)
    && (forall j :: 0 <= j < |runs| ==> Loaded(runs[j]))
    && (forall k :: k in views ==> EventMatches(views[k]))
  }

  ghost predicate HasFlags(runs: seq<Run>, corrupted: map<string, bool>) {
    forall j :: 0 <= j < |runs| ==> runs[j].modelId in corrupted
  }

  // The runs as the next start reads them, with the flags the store holds.
  function ReadRuns(runs: seq<Run>, corrupted: map<string, bool>): (read: seq<Run>)
    requires HasFlags(runs, corrupted)
    ensures |read| == |runs| && forall j :: 0 <= j < |runs| ==> read[j] == NextRun(runs[j], corrupted[runs[j].modelId])
  {
    seq(|runs|, j requires 0 <= j < |runs| => NextRun(runs[j], corrupted[runs[j].modelId]))
  }

  function RevivedAll(saved: map<string, Saved>): map<string, View> {
    map k | k in saved :: Revived(saved[k])
  }

  ghost predicate DiesAt(infos: map<string, Info>, views: map<string, View>, runs: seq<Run>, outs: seq<Outcome>, p: Point) {
    |outs| == |runs| && HasFlags(runs, p.corrupted) && Moment(infos, views, runs, outs, p)
  }

  // Recoveries that died one after the other, each started from what the one before left.
  ghost predicate Deaths(infos: map<string, Info>, views: map<string, View>, runs: seq<Run>, outss: seq<seq<Outcome>>, points: seq<Point>)
    decreases |points|
  {
    && |outss| == |points|
    && (points == []
        || (DiesAt(infos, views, runs, outss[0], points[0])
            && Deaths(infos, RevivedAll(points[0].saved), ReadRuns(runs, points[0].corrupted), outss[1..], points[1..])))
  }

  // Recovery started over after any number of deaths, each at any moment.
  method RecoverAgain(points: seq<Point>, runs: seq<Run>, ghost outss: seq<seq<Outcome>>, again: seq<Outcome>,
                      ghost infos: map<string, Info>, ghost views: map<string, View>)
    returns (store: FutureStore)
    requires points != [] && |again| == |runs| && Recoverable(views, runs) && Deaths(infos, views, runs, outss, points)
    ensures fresh(store) && store.Valid() && Infos(store.records) == infos && Views(store.records).Keys == infos.Keys
    ensures SettledAlike(infos, views, Views(store.records), runs, outss)
  {
    var read := runs;
    ghost var vs := views;
    assert points[0..] == points && outss[0..] == outss;
    for n := 0 to |points|
      invariant |read| == |runs| && Recoverable(vs, read) && Deaths(infos, vs, read, outss[n..], points[n..])
      invariant Carried(infos, views, runs, outss, vs, read, outss[n..])
      invariant n > 0 ==> vs == RevivedAll(points[n - 1].saved) && SavedFrom(infos, points[n - 1].saved)
    {
      assert points[n..][0] == points[n] && points[n..][1..] == points[n + 1..] && outss[n..][1..] == outss[n + 1..];
      DeathCarries(infos, views, runs, outss, vs, read, outss[n..], points[n]);
      read := ReadBack(read, points[n].corrupted);
      vs := RevivedAll(points[n].saved);
    }
    store := Restart(points[|points| - 1].saved, read, again);
    LastStart(infos, views, runs, outss, vs, read, points[|points| - 1].saved, Infos(store.records), Views(store.records));
  }

  ghost predicate SavedFrom(infos: map<string, Info>, saved: map<string, Saved>) {
    infos.Keys == saved.Keys && forall k :: k in infos ==> saved[k].info == infos[k]
  }

  // Each of these futures still ends as it would have without a death.
  ghost predicate Carried(infos: map<string, Info>, views: map<string, View>, runs: seq<Run>, outss: seq<seq<Outcome>>,
                          views': map<string, View>, runs': seq<Run>, outss': seq<seq<Outcome>>)
  {
    && infos.Keys == views.Keys == views'.Keys
    && forall k :: k in infos && Settles(infos[k], views[k], runs, outss) ==>
                     Same(infos[k], views[k], runs, views'[k], runs', outss')
  }

  ghost predicate Same(i: Info, v: View, runs: seq<Run>, v': View, runs': seq<Run>, outss': seq<seq<Outcome>>) {
    && Settles(i, v', runs', outss')
    && Final(i, v', Fates(runs')).status == Final(i, v, Fates(runs)).status
  }

  ghost predicate SettledAlike(infos: map<string, Info>, views: map<string, View>, views': map<string, View>, runs: seq<Run>, outss: seq<seq<Outcome>>)
    requires infos.Keys == views.Keys == views'.Keys
  {
    forall k :: k in infos && Settles(infos[k], views[k], runs, outss) ==> views'[k].status == Final(infos[k], views[k], Fates(runs)).status
  }

  // A future that starting over settles alike, by RestartsSettleAlikeExactly.
  ghost predicate Settles(i: Info, v: View, runs: seq<Run>, outss: seq<seq<Outcome>>) {
    forall j :: 0 <= j < |runs| && i.modelId == Some(runs[j].modelId) ==>
                  NeverCorrupts(runs[j], outss, j) || Untroubled(i, v, Latest(runs[j].checkpoints))
  }

  ghost predicate NeverCorrupts(run: Run, outss: seq<seq<Outcome>>, j: nat) {
    forall n :: 0 <= n < |outss| && j < |outss[n]| ==> !Corrupts(run, outss[n][j])
  }

  lemma LastStart(infos: map<string, Info>, views: map<string, View>, runs: seq<Run>, outss: seq<seq<Outcome>>, vs: map<string, View>,
                  read: seq<Run>, saved: map<string, Saved>, infos': map<string, Info>, views': map<string, View>)
    requires Carried(infos, views, runs, outss, vs, read, []) && vs == RevivedAll(saved) && SavedFrom(infos, saved)
    requires AsRestarted(saved, read, infos', views')
    ensures infos' == infos && views'.Keys == infos.Keys && SettledAlike(infos, views, views', runs, outss)
  {
  }

  lemma DeathCarries(infos: map<string, Info>, views: map<string, View>, runs: seq<Run>, outss: seq<seq<Outcome>>, vs: map<string, View>,
                     read: seq<Run>, left: seq<seq<Outcome>>, p: Point)
    requires left != [] && Recoverable(vs, read) && DiesAt(infos, vs, read, left[0], p)
    requires Carried(infos, views, runs, outss, vs, read, left)
    ensures Recoverable(RevivedAll(p.saved), ReadRuns(read, p.corrupted)) && SavedFrom(infos, p.saved)
    ensures Carried(infos, views, runs, outss, RevivedAll(p.saved), ReadRuns(read, p.corrupted), left[1..])
  {
    StillRecoverable(infos, vs, read, left[0], p);
    forall k | k in infos && Settles(infos[k], views[k], runs, outss)
      ensures Same(infos[k], views[k], runs, Revived(p.saved[k]), ReadRuns(read, p.corrupted), left[1..])
    {
      assert Same(infos[k], views[k], runs, vs[k], read, left);
      assert FutureMoment(infos[k], vs[k], p.saved[k], read, left[0], p.corrupted);
      ResumedFuture(infos[k], vs[k], p.saved[k], read, left, p.corrupted);
    }
  }

  lemma StillRecoverable(infos: map<string, Info>, vs: map<string, View>, read: seq<Run>, outs: seq<Outcome>, p: Point)
    requires Recoverable(vs, read) && DiesAt(infos, vs, read, outs, p)
    ensures Recoverable(RevivedAll(p.saved), ReadRuns(read, p.corrupted)) && SavedFrom(infos, p.saved)
  {
    forall k | k in infos
      ensures p.saved[k].info == infos[k]
    {
      assert FutureMoment(infos[k], vs[k], p.saved[k], read, outs, p.corrupted);
      SavedInfo(infos[k], vs[k], p.saved[k], read, outs, p.corrupted);
    }
  }

  lemma SavedInfo(i: Info, v: View, s: Saved, runs: seq<Run>, outs: seq<Outcome>, corrupted: map<string, bool>)
    requires |outs| == |runs| && FutureMoment(i, v, s, runs, outs, corrupted)
    ensures s.info == i
  {
    if j :| 0 <= j < |runs| && i.modelId == Some(runs[j].modelId) {
      assert RunMoment(i, v, s, runs[j], outs[j], corrupted[runs[j].modelId]);
    }
  }

  method ReadBack(runs: seq<Run>, corrupted: map<string, bool>) returns (read: seq<Run>)
    requires HasFlags(runs, corrupted)
    ensures read == ReadRuns(runs, corrupted)
  {
    read := [];
    for j := 0 to |runs|
      invariant |read| == j && forall l :: 0 <= l < j ==> read[l] == NextRun(runs[l], corrupted[runs[l].modelId])
    {
      read := read + [NextRun(runs[j], corrupted[runs[j].modelId])];
    }
  }

  lemma ResumedFuture(i: Info, v: View, s: Saved, runs: seq<Run>, outss: seq<seq<Outcome>>, corrupted: map<string, bool>)
    requires outss != [] && |outss[0]| == |runs| && DistinctIds(runs) && HasFlags(runs, corrupted)
    requires forall j :: 0 <= j < |runs| ==> Loaded(runs[j])
    requires EventMatches(v) && FutureMoment(i, v, s, runs, outss[0], corrupted) && Settles(i, v, runs, outss)
    ensures Same(i, v, runs, Revived(s), ReadRuns(runs, corrupted), outss[1..])
  {
    if j :| 0 <= j < |runs| && i.modelId == Some(runs[j].modelId) {
      ResumedOfRun(i, v, s, runs, outss, corrupted, j);
    } else {
      ResumedOfNone(i, v, s, runs, ReadRuns(runs, corrupted));
    }
  }

  lemma ResumedOfRun(i: Info, v: View, s: Saved, runs: seq<Run>, outss: seq<seq<Outcome>>, corrupted: map<string, bool>, j: nat)
    requires outss != [] && |outss[0]| == |runs| && DistinctIds(runs) && HasFlags(runs, corrupted)
    requires j < |runs| && i.modelId == Some(runs[j].modelId) && Loaded(runs[j]) && EventMatches(v)
    requires RunMoment(i, v, s, runs[j], outss[0][j], corrupted[runs[j].modelId]) && Settles(i, v, runs, outss)
    ensures Same(i, v, runs, Revived(s), ReadRuns(runs, corrupted), outss[1..])
  {
    var read, flag := ReadRuns(runs, corrupted), corrupted[runs[j].modelId];
    assert runs[..|runs|] == runs && read[..|read|] == read;
    OneRunPoint(runs, |runs|, j);
    OneRunPoint(read, |read|, j);
    ResumedRun(i, v, s, runs[j], outss, j, flag);
    assert forall l :: 0 <= l < |read| && i.modelId == Some(read[l].modelId) ==> l == j;
  }

  lemma ResumedOfNone(i: Info, v: View, s: Saved, runs: seq<Run>, read: seq<Run>)
    requires forall j :: 0 <= j < |runs| ==> i.modelId != Some(runs[j].modelId)
    requires |read| == |runs| && forall j :: 0 <= j < |runs| ==> read[j].modelId == runs[j].modelId
    requires EventMatches(v) && (s == SavedOf(i, v) || s == SavedOf(i, SampleStep(i, v)))
    ensures forall outss' :: Same(i, v, runs, Revived(s), read, outss')
  {
    FatesKeys(runs);
    FatesKeys(read);
    assert Revived(SavedOf(i, v)) == v && Revived(SavedOf(i, SampleStep(i, v))) == SampleStep(i, v);
    assert i.modelId.Some? ==> i.modelId.value !in Fates(runs) && i.modelId.value !in Fates(read);
  }

  lemma ResumedRun(i: Info, v: View, s: Saved, run: Run, outss: seq<seq<Outcome>>, j: nat, flag: bool)
    requires outss != [] && j < |outss[0]| && Loaded(run) && EventMatches(v) && RunMoment(i, v, s, run, outss[0][j], flag)
    requires NeverCorrupts(run, outss, j) || Untroubled(i, v, Latest(run.checkpoints))
    ensures Resumed(i, s, run, flag).status == RunStep(SampleStep(i, v), i.futureId, FateOf(run)).status
    ensures NeverCorrupts(NextRun(run, flag), outss[1..], j) || Untroubled(i, Revived(s), Latest(run.checkpoints))
  {
    DeathKeepsFate(i, v, run, Death(outss[0][j], s, flag));
    if NeverCorrupts(run, outss, j) {
      forall n | 0 <= n < |outss[1..]| && j < |outss[1..][n]|
        ensures !Corrupts(NextRun(run, flag), outss[1..][n][j])
      {
        assert outss[1..][n] == outss[n + 1];
      }
    }
  }

  // ---------- What a checkpoint decides ----------

  // A checkpoint saved now carries the current future id.  Whatever is enqueued and
  // completed afterwards, when the server dies and restores that checkpoint, the run's
  // futures from before the save are as they were at death, but for pending samples,
  // and all its later ones fail and name the checkpoint.
  method CheckpointDecides(store: FutureStore, requests: seq<Request>, runs: seq<Run>, outcomes: seq<Outcome>, ghost j: nat, ghost c: Ckpt)
    returns (reborn: FutureStore, ghost died: map<string, View>)
    requires store.Valid() && |outcomes| == |runs| && DistinctIds(runs)
    requires c.futureId == store.CurrentFutureId()
    requires j < |runs| && FateOf(runs[j]) == RestoredRun(Some(c))
    modifies store, Objects(store.records)
    ensures died == Views(store.records) && Since(old(Infos(store.records)), Infos(store.records), c.futureId)
    ensures Infos(reborn.records) == Infos(store.records)
    ensures Decided(Infos(store.records), died, Views(reborn.records), runs[j].modelId, c)
  {
    ServeUntilDeath(store, requests);
    died := Views(store.records);
    reborn := DieAndRestart(store, runs, outcomes, j, c);
  }

  method ServeUntilDeath(store: FutureStore, requests: seq<Request>)
    requires store.Valid()
    modifies store, Objects(store.records)
    ensures store.Valid() && Since(old(Infos(store.records)), Infos(store.records), old(store.CurrentFutureId()))
  {
    ghost var _ := Serve(store, requests);
  }

  method DieAndRestart(store: FutureStore, runs: seq<Run>, outcomes: seq<Outcome>, ghost j: nat, ghost c: Ckpt) returns (reborn: FutureStore)
    requires store.Valid() && |outcomes| == |runs| && DistinctIds(runs)
    requires j < |runs| && FateOf(runs[j]) == RestoredRun(Some(c))
    ensures Infos(reborn.records) == Infos(store.records)
    ensures Decided(Infos(store.records), Views(store.records), Views(reborn.records), runs[j].modelId, c)
  {
    ghost var infos, died, saved := Infos(store.records), Views(store.records), store.persisted;
    reborn := Restart(store.persisted, runs, outcomes);
    DecidedByFate(infos, died, saved, Infos(reborn.records), Views(reborn.records), runs, j, c);
  }

  ghost predicate Decided(infos: map<string, Info>, died: map<string, View>, after: map<string, View>, modelId: string, c: Ckpt) {
    && infos.Keys == died.Keys == after.Keys
    && forall k :: k in infos && infos[k].modelId == Some(modelId) ==>
                     if infos[k].futureId <= c.futureId then after[k] == SampleStep(infos[k], died[k])
                     else after[k].status == Failed && after[k].error == Some(AfterCheckpoint(c.id))
  }

  lemma DecidedByFate(infos: map<string, Info>, died: map<string, View>, saved: map<string, Saved>, infos': map<string, Info>,
                      after: map<string, View>, runs: seq<Run>, j: nat, c: Ckpt)
    requires Settled(infos, died, saved) && AsRestarted(saved, runs, infos', after)
    requires DistinctIds(runs) && j < |runs| && FateOf(runs[j]) == RestoredRun(Some(c))
    ensures infos' == infos && Decided(infos, died, after, runs[j].modelId, c)
  {
    assert runs[..|runs|] == runs;
    OneRunPoint(runs, |runs|, j);
    forall k | k in infos
      ensures Revived(saved[k]) == died[k]
    {
    }
  }
}
