// A run and its checkpoints in the file-backed store: what a restart reads back when the
// process dies at any moment of a commit (src/tuft/training_controller.py,
// src/tuft/persistence/redis_store.py, src/tuft/persistence/file_redis.py).
module CheckpointCommit {
  import opened Wrappers
  import opened StoreKeys
  import opened TrainingRuns
  import F = FileRedis

  // ---------- Keys and values ----------

  // model_dump_json of the two kinds of record; reading it back gives the record. A
  // checkpoint's record carries its own name.
  datatype Codec = Codec(run: RunRecord -> string, ckpt: (string, Checkpoint) -> string)

  ghost predicate Faithful(c: Codec) {
    && (forall a, b :: c.run(a) == c.run(b) ==> a == b)
    && (forall n1, a, n2, b :: c.ckpt(n1, a) == c.ckpt(n2, b) ==> n1 == n2 && a == b)
  }

  function Infix(kind: Kind): string {
    if kind.Training? then "::ckpt::" else "::sampler_ckpt::"
  }

  // The key whose last part, escaped already, is slot.
  function SlotKey(base: string, kind: Kind, slot: string): string {
    base + Infix(kind) + slot
  }

  function CkptKey(base: string, kind: Kind, name: string): string {
    SlotKey(base, kind, Escape(name))
  }

  lemma SlotsDistinct(base: string, k1: Kind, s1: string, k2: Kind, s2: string)
    ensures SlotKey(base, k1, s1) != base
    ensures SlotKey(base, k1, s1) == SlotKey(base, k2, s2) <==> k1 == k2 && s1 == s2
  {
    var a, b := SlotKey(base, k1, s1), SlotKey(base, k2, s2);
    assert |a| > |base|;
    if a == b {
      assert a[|base| + 2] == Infix(k1)[2] && b[|base| + 2] == Infix(k2)[2];
      assert k1 == k2;
      assert a[|base| + |Infix(k1)|..] == s1 && b[|base| + |Infix(k2)|..] == s2;
    }
  }

  lemma KeysSay(base: string, name: string)
    ensures CkptKey(base, Training, name) == base + "::ckpt::" + Escape(name)
    ensures CkptKey(base, Sampler, name) == base + "::sampler_ckpt::" + Escape(name)
  {
  }

  lemma KeysShareExactly(base: string, k1: Kind, n1: string, k2: Kind, n2: string)
    ensures CkptKey(base, k1, n1) != base
    ensures CkptKey(base, k1, n1) == CkptKey(base, k2, n2) <==> k1 == k2 && Escape(n1) == Escape(n2)
  {
    SlotsDistinct(base, k1, Escape(n1), k2, Escape(n2));
  }

  // The table holds this run record and exactly these checkpoints of the run, all without expiry.
  ghost predicate Shows(table: F.Table, base: string, c: Codec, run: RunRecord, folders: PerKind<Folder>) {
    && F.Shown(table, base) == Some(F.Entry(c.run(run), None))
    && forall kind: Kind, slot: string :: SlotShows(F.Shown(table, SlotKey(base, kind, slot)), c, folders.Of(kind), slot)
  }

  // The entry under a key is the record of each name with that key, and there is none without a name.
  ghost predicate SlotShows(entry: Option<F.Entry>, c: Codec, folder: Folder, slot: string) {
    && (forall name :: name in folder && Escape(name) == slot ==> entry == Some(F.Entry(c.ckpt(name, folder[name]), None)))
    && (entry.Some? ==> exists name :: name in folder && Escape(name) == slot)
  }

  // Some record of this kind reads as this checkpoint.
  ghost predicate Stores(table: F.Table, base: string, c: Codec, kind: Kind, name: string, ckpt: Checkpoint) {
    exists slot :: F.Shown(table, SlotKey(base, kind, slot)) == Some(F.Entry(c.ckpt(name, ckpt), None))
  }

  // Every record entered under the name it carries: that gives back exactly the folders.
  lemma ReadsBack(table: F.Table, base: string, c: Codec, run: RunRecord, folders: PerKind<Folder>, kind: Kind, name: string, ckpt: Checkpoint)
    requires Faithful(c) && Shows(table, base, c, run, folders)
    ensures Stores(table, base, c, kind, name, ckpt) <==> name in folders.Of(kind) && folders.Of(kind)[name] == ckpt
  {
    var folder := folders.Of(kind);
    assert SlotShows(F.Shown(table, SlotKey(base, kind, Escape(name))), c, folder, Escape(name));
    if slot :| F.Shown(table, SlotKey(base, kind, slot)) == Some(F.Entry(c.ckpt(name, ckpt), None)) {
      assert SlotShows(F.Shown(table, SlotKey(base, kind, slot)), c, folder, slot);
    }
  }

  lemma ReadsBackUniquely(table: F.Table, base: string, c: Codec, r1: RunRecord, f1: PerKind<Folder>, r2: RunRecord, f2: PerKind<Folder>)
    requires Faithful(c) && Shows(table, base, c, r1, f1) && Shows(table, base, c, r2, f2)
    ensures r1 == r2 && f1 == f2
  {
    forall kind: Kind
      ensures f1.Of(kind) == f2.Of(kind)
    {
      forall name: string
        ensures name in f1.Of(kind) <==> name in f2.Of(kind)
        ensures name in f1.Of(kind) ==> f1.Of(kind)[name] == f2.Of(kind)[name]
      {
        if name in f1.Of(kind) {
          ReadsBack(table, base, c, r1, f1, kind, name, f1.Of(kind)[name]);
          ReadsBack(table, base, c, r2, f2, kind, name, f1.Of(kind)[name]);
        }
        if name in f2.Of(kind) {
          ReadsBack(table, base, c, r1, f1, kind, name, f2.Of(kind)[name]);
          ReadsBack(table, base, c, r2, f2, kind, name, f2.Of(kind)[name]);
        }
      }
    }
    assert f1.Of(Training) == f2.Of(Training) && f1.Of(Sampler) == f2.Of(Sampler);
  }

  // No table holds checkpoints under two names with one key.
  lemma OneNameEachKey(table: F.Table, base: string, c: Codec, run: RunRecord, folders: PerKind<Folder>, kind: Kind, name: string)
    requires Faithful(c) && Shows(table, base, c, run, folders) && name in folders.Of(kind)
    ensures OwnsKey(folders.Of(kind), name)
  {
    assert SlotShows(F.Shown(table, SlotKey(base, kind, Escape(name))), c, folders.Of(kind), Escape(name));
  }

  // ---------- The writes ----------

  lemma RunWritten(table: F.Table, base: string, c: Codec, run: RunRecord, folders: PerKind<Folder>, run': RunRecord)
    requires Shows(table, base, c, run, folders)
    ensures Shows(F.Applied(table, F.Put(base, c.run(run'))), base, c, run', folders)
  {
    var table' := F.Applied(table, F.Put(base, c.run(run')));
    forall kind: Kind, slot: string
      ensures SlotShows(F.Shown(table', SlotKey(base, kind, slot)), c, folders.Of(kind), slot)
    {
      SlotsDistinct(base, kind, slot, kind, slot);
      assert SlotShows(F.Shown(table, SlotKey(base, kind, slot)), c, folders.Of(kind), slot);
    }
  }

  lemma SlotWritten(c: Codec, entry: Option<F.Entry>, folder: Folder, slot: string, name: string, ckpt: Checkpoint)
    requires SlotShows(entry, c, folder, slot)
    ensures slot == Escape(name) ==> SlotShows(Some(F.Entry(c.ckpt(name, ckpt), None)), c, Written(folder, name, ckpt), slot)
    ensures slot == Escape(name) ==> SlotShows(None, c, Kept(folder, name), slot)
    ensures slot != Escape(name) ==> SlotShows(entry, c, Written(folder, name, ckpt), slot) && SlotShows(entry, c, Kept(folder, name), slot)
  {
    if slot == Escape(name) {
      assert name in Written(folder, name, ckpt);
    } else if entry.Some? {
      var other :| other in folder && Escape(other) == slot;
      assert other in Written(folder, name, ckpt) && other in Kept(folder, name);
    }
  }

  lemma CkptWritten(table: F.Table, base: string, c: Codec, run: RunRecord, folders: PerKind<Folder>, k: Kind, n: string, ckpt: Checkpoint)
    requires Shows(table, base, c, run, folders)
    ensures Shows(F.Applied(table, F.Put(CkptKey(base, k, n), c.ckpt(n, ckpt))), base, c, run, folders.With(k, Written(folders.Of(k), n, ckpt)))
  {
    var table' := F.Applied(table, F.Put(CkptKey(base, k, n), c.ckpt(n, ckpt)));
    var folders' := folders.With(k, Written(folders.Of(k), n, ckpt));
    KeysShareExactly(base, k, n, k, n);
    forall kind: Kind, slot: string
      ensures SlotShows(F.Shown(table', SlotKey(base, kind, slot)), c, folders'.Of(kind), slot)
    {
      var entry := F.Shown(table, SlotKey(base, kind, slot));
      assert SlotShows(entry, c, folders.Of(kind), slot);
      SlotsDistinct(base, kind, slot, k, Escape(n));
      SlotWritten(c, entry, folders.Of(kind), slot, n, ckpt);
    }
  }

  lemma CkptErased(table: F.Table, base: string, c: Codec, run: RunRecord, folders: PerKind<Folder>, k: Kind, n: string)
    requires Shows(table, base, c, run, folders)
    ensures Shows(F.Applied(table, F.Remove(F.KeySet([CkptKey(base, k, n)]))), base, c, run, folders.With(k, Kept(folders.Of(k), n)))
  {
    var folders' := folders.With(k, Kept(folders.Of(k), n));
    KeysShareExactly(base, k, n, k, n);
    assert F.KeySet([CkptKey(base, k, n)]) == {CkptKey(base, k, n)};
    forall kind: Kind, slot: string
      ensures SlotShows(F.Shown(table - {CkptKey(base, k, n)}, SlotKey(base, kind, slot)), c, folders'.Of(kind), slot)
    {
      var entry := F.Shown(table, SlotKey(base, kind, slot));
      assert SlotShows(entry, c, folders.Of(kind), slot);
      SlotsDistinct(base, kind, slot, k, Escape(n));
      SlotWritten(c, entry, folders.Of(kind), slot, n, Checkpoint(0, None, None));
    }
  }

  // Two names a client may choose: whichever is written last is the one that is left, and
  // deleting either takes the record away.
  lemma SecondNameLosesFirst(table: F.Table, base: string, c: Codec, run: RunRecord, folders: PerKind<Folder>, kind: Kind, ckpt: Checkpoint)
    requires Faithful(c) && Shows(table, base, c, run, folders) && "a::b" in folders.Of(kind)
    ensures "a__SEP__b" !in folders.Of(kind)
    ensures CkptKey(base, kind, "a::b") == CkptKey(base, kind, "a__SEP__b")
    ensures "a::b" !in Written(folders.Of(kind), "a__SEP__b", ckpt) && "a::b" !in Kept(folders.Of(kind), "a__SEP__b")
  {
    TwoNamesOneKey();
    OneNameEachKey(table, base, c, run, folders, kind, "a::b");
  }

  // ---------- One step, in memory and on disk ----------

  // The disk contents since show the pair from before or the pair from after.
  ghost predicate OldOrNew(history: seq<F.Disk>, history': seq<F.Disk>, base: string, c: Codec,
                           run: RunRecord, folders: PerKind<Folder>, run': RunRecord, folders': PerKind<Folder>) {
    && history <= history'
    && forall i :: |history| <= i < |history'| ==>
                     Shows(F.Image(history'[i]), base, c, run, folders) || Shows(F.Image(history'[i]), base, c, run', folders')
  }

  lemma CrashShowsPair(history: seq<F.Disk>, history': seq<F.Disk>, before: F.Table, after: F.Table, base: string, c: Codec,
                       run: RunRecord, folders: PerKind<Folder>, run': RunRecord, folders': PerKind<Folder>)
    requires F.CrashSafe(history, history', before, after)
    requires Shows(before, base, c, run, folders) && Shows(after, base, c, run', folders')
    ensures OldOrNew(history, history', base, c, run, folders, run', folders')
  {
  }

  method SaveRun(store: F.Store, base: string, c: Codec, run': RunRecord, ghost run: RunRecord, ghost folders: PerKind<Folder>)
    requires store.Valid() && Shows(store.data, base, c, run, folders)
    modifies store
    ensures store.Valid() && Shows(store.data, base, c, run', folders)
    ensures OldOrNew(old(store.history), store.history, base, c, run, folders, run', folders)
  {
    ghost var before := store.data;
    store.Set(base, c.run(run'));
    RunWritten(before, base, c, run, folders, run');
    CrashShowsPair(old(store.history), store.history, before, store.data, base, c, run, folders, run', folders);
  }

  // save_records_atomic: both records in one pipeline.
  method SaveBoth(store: F.Store, base: string, c: Codec, run': RunRecord, k: Kind, n: string, ckpt: Checkpoint, now: real,
                  ghost run: RunRecord, ghost folders: PerKind<Folder>)
    requires store.Valid() && Shows(store.data, base, c, run, folders)
    modifies store
    ensures store.Valid() && Shows(store.data, base, c, run', folders.With(k, Written(folders.Of(k), n, ckpt)))
    ensures OldOrNew(old(store.history), store.history, base, c, run, folders, run', folders.With(k, Written(folders.Of(k), n, ckpt)))
  {
    ghost var before := store.data;
    var pipe := new F.Pipeline(store);
    pipe.Queue(F.QSet(base, c.run(run')));
    pipe.Queue(F.QSet(CkptKey(base, k, n), c.ckpt(n, ckpt)));
    pipe.Exit(false, [now, now]);
    ghost var ws := [F.Put(base, c.run(run')), F.Put(CkptKey(base, k, n), c.ckpt(n, ckpt))];
    TwoWrites(before, ws[0], ws[1]);
    assert F.WritesOf([F.QSet(base, c.run(run')), F.QSet(CkptKey(base, k, n), c.ckpt(n, ckpt))], [now, now]) == ws;
    RunWritten(before, base, c, run, folders, run');
    CkptWritten(F.Applied(before, ws[0]), base, c, run', folders, k, n, ckpt);
    CrashShowsPair(old(store.history), store.history, before, store.data, base, c, run, folders, run', folders.With(k, Written(folders.Of(k), n, ckpt)));
  }

  lemma TwoWrites(table: F.Table, a: F.Write, b: F.Write)
    ensures F.AppliedAll(table, [a, b]) == F.Applied(F.Applied(table, a), b)
  {
    F.AppliedAppend(table, [a], [b]);
    assert [a] + [b] == [a, b];
    assert [a][..0] == [] && [b][..0] == [];
    assert F.AppliedAll(table, [a]) == F.Applied(table, a);
  }

  method EraseOne(store: F.Store, base: string, c: Codec, k: Kind, n: string, ghost run: RunRecord, ghost folders: PerKind<Folder>)
    requires store.Valid() && Shows(store.data, base, c, run, folders)
    modifies store
    ensures store.Valid() && Shows(store.data, base, c, run, folders.With(k, Kept(folders.Of(k), n)))
    ensures OldOrNew(old(store.history), store.history, base, c, run, folders, run, folders.With(k, Kept(folders.Of(k), n)))
  {
    ghost var before := store.data;
    var _ := store.Delete([CkptKey(base, k, n)]);
    CkptErased(before, base, c, run, folders, k, n);
    CrashShowsPair(old(store.history), store.history, before, store.data, base, c, run, folders, run, folders.With(k, Kept(folders.Of(k), n)));
  }

  // What a step is to leave of the persisted folders: a commit enters its checkpoint, a
  // deletion takes one name away, and nothing else concerns them.
  ghost function Documented(s: State, e: Event): PerKind<Folder> {
    if e.CommitE? && s.phase.Stored? && s.phase.name in s.folders.Of(s.phase.kind) then
      var k, n := s.phase.kind, s.phase.name;
      s.savedFolders.With(k, s.savedFolders.Of(k)[n := s.folders.Of(k)[n]])
    else if e.EraseE? then
      s.savedFolders.With(e.kind, s.savedFolders.Of(e.kind) - {e.id})
    else
      s.savedFolders
  }

  // No other persisted name has the key that the step writes or deletes.
  ghost predicate OwnsItsKey(s: State, e: Event) {
    && (e.CommitE? && s.phase.Stored? && s.phase.name in s.folders.Of(s.phase.kind) ==>
          OwnsKey(s.savedFolders.Of(s.phase.kind), s.phase.name))
    && (e.EraseE? ==> OwnsKey(s.savedFolders.Of(e.kind), e.id))
  }

  // What it leaves in fact.
  ghost function Effect(s: State, e: Event): PerKind<Folder> {
    if e.CommitE? && s.phase.Stored? then Committed(s).savedFolders
    else if e.EraseE? then s.savedFolders.With(e.kind, Kept(s.savedFolders.Of(e.kind), e.id))
    else s.savedFolders
  }

  // Dying at any moment leaves the one pair or the other, and completing leaves the other.
  ghost predicate LeavesOldOrNew(history: seq<F.Disk>, history': seq<F.Disk>, disk: F.Disk, base: string, c: Codec,
                                 run: RunRecord, folders: PerKind<Folder>, run': RunRecord, folders': PerKind<Folder>) {
    && OldOrNew(history, history', base, c, run, folders, run', folders')
    && Shows(F.Image(disk), base, c, run', folders')
  }

  // So the step does as documented exactly when the key is the name's own.
  lemma AsDocumentedExactly(history: seq<F.Disk>, history': seq<F.Disk>, disk: F.Disk, base: string, c: Codec, s: State, e: Event, run': RunRecord)
    requires Faithful(c) && LeavesOldOrNew(history, history', disk, base, c, s.saved, s.savedFolders, run', Effect(s, e))
    ensures LeavesOldOrNew(history, history', disk, base, c, s.saved, s.savedFolders, run', Documented(s, e)) <==> OwnsItsKey(s, e)
  {
    DocumentedIsEffectExactly(s, e);
    if Shows(F.Image(disk), base, c, run', Documented(s, e)) {
      ReadsBackUniquely(F.Image(disk), base, c, run', Documented(s, e), run', Effect(s, e));
    }
  }

  lemma DocumentedIsEffectExactly(s: State, e: Event)
    ensures Documented(s, e) == Effect(s, e) <==> OwnsItsKey(s, e)
  {
    if e.CommitE? && s.phase.Stored? && s.phase.name in s.folders.Of(s.phase.kind) {
      var k, n := s.phase.kind, s.phase.name;
      WritesOneNameExactly(s.savedFolders.Of(k), n, s.folders.Of(k)[n]);
      assert Documented(s, e).Of(k) == s.savedFolders.Of(k)[n := s.folders.Of(k)[n]];
      assert Effect(s, e).Of(k) == Written(s.savedFolders.Of(k), n, s.folders.Of(k)[n]);
    } else if e.EraseE? {
      WritesOneNameExactly(s.savedFolders.Of(e.kind), e.id, Checkpoint(0, None, None));
      assert Documented(s, e).Of(e.kind) == s.savedFolders.Of(e.kind) - {e.id};
      assert Effect(s, e).Of(e.kind) == Kept(s.savedFolders.Of(e.kind), e.id);
    }
  }

  // _save_training_run_with_checkpoint, and the step it is part of.
  method CommitOnDisk(t: TrainingRun, store: F.Store, base: string, c: Codec, now: real)
    requires t.Valid() && t.phase.Stored? && store.Valid() && Shows(store.data, base, c, t.saved, t.savedFolders)
    modifies t, store
    ensures t.Valid() && store.Valid() && Shows(store.data, base, c, t.saved, t.savedFolders)
    ensures forall k :: old(t.everSaved).Of(k) <= t.everSaved.Of(k)
    ensures OldOrNew(old(store.history), store.history, base, c, old(t.saved), old(t.savedFolders), t.saved, t.savedFolders)
    ensures t.saved == t.run == old(t.run) && t.savedFolders == Effect(old(t.Look()), CommitE)
    ensures Stepped(CommitE, old(t.Look()), t.Look())
  {
    var k, n := t.phase.kind, t.phase.name;
    if n in t.folders.Of(k) {
      SaveBoth(store, base, c, t.run, k, n, t.folders.Of(k)[n], now, t.saved, t.savedFolders);
    } else {
      SaveRun(store, base, c, t.run, t.saved, t.savedFolders);
    }
    t.Commit();
  }

  // The run record alone: the guard's own save, or any other.
  method SaveOnDisk(t: TrainingRun, store: F.Store, base: string, c: Codec, e: Event)
    requires t.Valid() && store.Valid() && Shows(store.data, base, c, t.saved, t.savedFolders)
    requires e == SaveRecordE || (e == LeaveE && t.phase == Counted)
    modifies t, store
    ensures t.Valid() && store.Valid() && Shows(store.data, base, c, t.saved, t.savedFolders)
    ensures t.everSaved == old(t.everSaved) && Stepped(e, old(t.Look()), t.Look())
    ensures OldOrNew(old(store.history), store.history, base, c, old(t.saved), old(t.savedFolders), t.saved, t.savedFolders)
  {
    SaveRun(store, base, c, t.run, t.saved, t.savedFolders);
    if e == LeaveE {
      t.Leave();
    } else {
      t.SaveRecord();
    }
  }

  method EraseOnDisk(t: TrainingRun, store: F.Store, base: string, c: Codec, kind: Kind, name: string)
    requires t.Valid() && store.Valid() && Shows(store.data, base, c, t.saved, t.savedFolders)
    modifies t, store
    ensures t.Valid() && store.Valid() && Shows(store.data, base, c, t.saved, t.savedFolders)
    ensures t.everSaved == old(t.everSaved) && Stepped(EraseE(kind, name), old(t.Look()), t.Look())
    ensures OldOrNew(old(store.history), store.history, base, c, old(t.saved), old(t.savedFolders), t.saved, t.savedFolders)
  {
    EraseOne(store, base, c, kind, name, t.saved, t.savedFolders);
    t.Erase(kind, name);
  }

  method TakeStep(t: TrainingRun, store: F.Store, base: string, c: Codec, e: Event, now: real)
    requires t.Valid() && store.Valid() && Shows(store.data, base, c, t.saved, t.savedFolders)
    modifies t, store
    ensures t.Valid() && store.Valid() && Shows(store.data, base, c, t.saved, t.savedFolders)
    ensures forall k :: old(t.everSaved).Of(k) <= t.everSaved.Of(k)
    ensures OldOrNew(old(store.history), store.history, base, c, old(t.saved), old(t.savedFolders), t.saved, t.savedFolders)
    ensures t.savedFolders == Effect(old(t.Look()), e) && Stepped(e, old(t.Look()), t.Look())
  {
    match e {
      case CommitE =>
        if t.phase.Stored? {
          CommitOnDisk(t, store, base, c, now);
        }
      case LeaveE =>
        if t.phase == Counted {
          SaveOnDisk(t, store, base, c, e);
        }
      case SaveRecordE =>
        SaveOnDisk(t, store, base, c, e);
      case EraseE(kind, name) =>
        EraseOnDisk(t, store, base, c, kind, name);
      case _ =>
        Step(t, e);
    }
  }

  // The same, and what the step was to do: it does that exactly when the key is the name's own.
  method StepOnDisk(t: TrainingRun, store: F.Store, base: string, c: Codec, e: Event, now: real)
    requires t.Valid() && store.Valid() && Shows(store.data, base, c, t.saved, t.savedFolders)
    modifies t, store
    ensures t.Valid() && store.Valid() && Shows(store.data, base, c, t.saved, t.savedFolders)
    ensures forall k :: old(t.everSaved).Of(k) <= t.everSaved.Of(k)
    ensures OldOrNew(old(store.history), store.history, base, c, old(t.saved), old(t.savedFolders), t.saved, t.savedFolders)
    ensures t.savedFolders == Effect(old(t.Look()), e) && Stepped(e, old(t.Look()), t.Look())
    ensures var s := old(t.Look());
            Faithful(c) ==>
              (LeavesOldOrNew(old(store.history), store.history, store.disk, base, c, s.saved, s.savedFolders, t.saved, Documented(s, e))
               <==> OwnsItsKey(s, e))
  {
    ghost var s := t.Look();
    TakeStep(t, store, base, c, e, now);
    if Faithful(c) {
      AsDocumentedExactly(old(store.history), store.history, store.disk, base, c, s, e, t.saved);
    }
  }

  // ---------- Dying at any moment ----------

  // Read back, the table gives a run whose counters exceed its own automatic checkpoints
  // and all of these numbers.
  ghost predicate ReloadsSoundly(table: F.Table, base: string, c: Codec, numbers: PerKind<set<nat>>) {
    exists run, folders :: Shows(table, base, c, run, folders) && Reloadable(run, folders, numbers)
  }

  // Contents that arose during step k reload soundly for every number committed before it.
  ghost predicate SoundDuring(history: seq<F.Disk>, starts: seq<nat>, numbers: seq<PerKind<set<nat>>>, base: string, c: Codec, k: nat)
    requires |starts| == |numbers| && k + 1 < |starts|
  {
    && starts[k] <= starts[k + 1] <= |history|
    && (forall i :: starts[k] <= i < starts[k + 1] ==> ReloadsSoundly(F.Image(history[i]), base, c, numbers[k]))
    && (forall kind: Kind :: numbers[k].Of(kind) <= numbers[k + 1].Of(kind))
  }

  ghost predicate SoundThroughout(history: seq<F.Disk>, starts: seq<nat>, numbers: seq<PerKind<set<nat>>>, base: string, c: Codec, steps: nat) {
    && |starts| == |numbers| == steps + 1 && starts[steps] == |history|
    && forall k :: 0 <= k < steps ==> SoundDuring(history, starts, numbers, base, c, k)
  }

  // Over any interleaving of steps, whatever moment the process dies at, the counter a
  // restart reads exceeds every automatic number committed by then.
  method RunOnDisk(t: TrainingRun, store: F.Store, base: string, c: Codec, events: seq<Event>, now: real)
    returns (ghost starts: seq<nat>, ghost numbers: seq<PerKind<set<nat>>>, ghost trace: seq<State>)
    requires t.Valid() && store.Valid() && Shows(store.data, base, c, t.saved, t.savedFolders)
    modifies t, store
    ensures t.Valid() && store.Valid() && Shows(store.data, base, c, t.saved, t.savedFolders)
    ensures old(store.history) <= store.history
    ensures SoundThroughout(store.history, starts, numbers, base, c, |events|)
    ensures starts[0] == |old(store.history)| && numbers[0] == old(t.everSaved) && numbers[|events|] == t.everSaved
    ensures IsTrace(events, trace) && trace[0] == old(t.Look()) && trace[|events|] == t.Look()
  {
    starts, numbers, trace := [|store.history|], [t.everSaved], [t.Look()];
    assert events[..0] == [];
    for j := 0 to |events|
      invariant t.Valid() && store.Valid() && Shows(store.data, base, c, t.saved, t.savedFolders)
      invariant old(store.history) <= store.history
      invariant SoundThroughout(store.history, starts, numbers, base, c, j)
      invariant starts[0] == |old(store.history)| && numbers[0] == old(t.everSaved) && numbers[j] == t.everSaved
      invariant IsTrace(events[..j], trace) && trace[0] == old(t.Look()) && trace[j] == t.Look()
    {
      ghost var before, was := t.Look(), store.history;
      StepOnDisk(t, store, base, c, events[j], now);
      StepReloads(before, t.Look(), was, store.history, base, c);
      SoundNext(was, store.history, starts, numbers, base, c, j, t.everSaved);
      TraceNext(events, j, trace, t.Look());
      starts, numbers, trace := starts + [|store.history|], numbers + [t.everSaved], trace + [t.Look()];
    }
    assert events[..|events|] == events;
  }

  lemma StepReloads(s: State, s': State, history: seq<F.Disk>, history': seq<F.Disk>, base: string, c: Codec)
    requires Invariant(s) && Invariant(s') && forall k :: s.everSaved.Of(k) <= s'.everSaved.Of(k)
    requires OldOrNew(history, history', base, c, s.saved, s.savedFolders, s'.saved, s'.savedFolders)
    ensures forall i :: |history| <= i < |history'| ==> ReloadsSoundly(F.Image(history'[i]), base, c, s.everSaved)
  {
    assert Reloadable(s.saved, s.savedFolders, s.everSaved);
    assert Reloadable(s'.saved, s'.savedFolders, s.everSaved);
  }

  lemma SoundNext(history: seq<F.Disk>, history': seq<F.Disk>, starts: seq<nat>, numbers: seq<PerKind<set<nat>>>, base: string, c: Codec,
                  j: nat, next: PerKind<set<nat>>)
    requires SoundThroughout(history, starts, numbers, base, c, j) && history <= history'
    requires forall i :: |history| <= i < |history'| ==> ReloadsSoundly(F.Image(history'[i]), base, c, numbers[j])
    requires forall k :: numbers[j].Of(k) <= next.Of(k)
    ensures SoundThroughout(history', starts + [|history'|], numbers + [next], base, c, j + 1)
  {
    var starts', numbers' := starts + [|history'|], numbers + [next];
    forall k | 0 <= k < j + 1
      ensures SoundDuring(history', starts', numbers', base, c, k)
    {
      if k < j {
        assert SoundDuring(history, starts, numbers, base, c, k);
        forall i | starts'[k] <= i < starts'[k + 1]
          ensures ReloadsSoundly(F.Image(history'[i]), base, c, numbers'[k])
        {
          assert history'[i] == history[i];
        }
      }
    }
  }

  // ---------- The next process ----------

  lemma PutBack(table: F.Table, k: string)
    requires k in table
    ensures table[k := table[k]] == table && (table - {k})[k := table[k]] == table
  {
  }

  // Every table is what some log leaves, so every file can be opened.
  lemma {:induction false} SomeLog(table: F.Table) returns (log: seq<F.Write>)
    ensures F.Replay(log) == table
    decreases |table|
  {
    if table == map[] {
      log := [];
    } else {
      var k :| k in table;
      var rest := table - {k};
      assert rest.Keys == table.Keys - {k};
      assert |rest| < |table|;
      log := SomeLog(rest);
      var e := table[k];
      var w := if e.expiresAt.None? then F.Put(k, e.value) else F.PutFor(k, e.value, e.expiresAt.value, 0.0);
      F.ReplayNext(log, w);
      PutBack(table, k);
      log := log + [w];
    }
  }

  // A disk content that reloads soundly starts a process that is sound again, with every
  // committed number still accounted for; RunOnDisk then applies to it.
  method Reopen(disk: F.Disk, base: string, c: Codec, run: RunRecord, folders: PerKind<Folder>, ghost numbers: PerKind<set<nat>>)
    returns (t: TrainingRun, store: F.Store)
    requires Shows(F.Image(disk), base, c, run, folders) && Reloadable(run, folders, numbers)
    ensures fresh(t) && fresh(store) && t.Valid() && store.Valid() && store.disk == disk
    ensures Shows(store.data, base, c, t.saved, t.savedFolders)
    ensures t.run == t.saved == run && t.folders == folders && t.everSaved == numbers && t.phase == Idle
  {
    ghost var log := SomeLog(F.Image(disk));
    store := new F.Store(disk, log);
    t := new TrainingRun.Reopened(run, folders, numbers);
  }
}
