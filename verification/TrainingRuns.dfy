// One training run: the sequence guard, checkpoint counters and names, and what
// is persisted of them, step by step between awaits and across crashes
// (src/tuft/training_controller.py).
module TrainingRuns {
  import opened Wrappers
  import opened SlotNames
  import opened StoreKeys

  // ---------- Automatic names ----------

  function Zeros(n: nat): string {
    if n == 0 then "" else "0" + Zeros(n - 1)
  }

  // f"{n:04d}"
  function Padded(n: nat): string {
    var s := Decimal(n);
    if |s| < 4 then Zeros(4 - |s|) + s else s
  }

  function AutoName(n: nat): string {
    "checkpoint-" + Padded(n)
  }

  function ValueOf(s: string): int {
    if s == "" then 0 else 10 * ValueOf(s[..|s| - 1]) + (s[|s| - 1] as int - '0' as int)
  }

  lemma {:induction false} DecimalValue(n: nat)
    ensures ValueOf(Decimal(n)) == n
  {
    if n >= 10 {
      DecimalValue(n / 10);
      var s := Decimal(n);
      assert s[..|s| - 1] == Decimal(n / 10);
    } else {
      assert Decimal(n)[..0] == "";
    }
  }

  lemma {:induction false} LeadingZero(s: string)
    ensures ValueOf("0" + s) == ValueOf(s)
  {
    var t := "0" + s;
    if s == "" {
      assert t[..0] == "";
    } else {
      assert t[..|t| - 1] == "0" + s[..|s| - 1];
      LeadingZero(s[..|s| - 1]);
    }
  }

  lemma {:induction false} ZerosValue(n: nat, s: string)
    ensures ValueOf(Zeros(n) + s) == ValueOf(s)
  {
    if n == 0 {
      assert Zeros(0) + s == s;
    } else {
      assert Zeros(n) + s == "0" + (Zeros(n - 1) + s);
      LeadingZero(Zeros(n - 1) + s);
      ZerosValue(n - 1, s);
    }
  }

  lemma PaddedValue(n: nat)
    ensures ValueOf(Padded(n)) == n
  {
    DecimalValue(n);
    var s := Decimal(n);
    if |s| < 4 {
      ZerosValue(4 - |s|, s);
    }
  }

  // Different counters give different names, past the padding as well.
  lemma AutoNameInjective(m: nat, n: nat)
    requires AutoName(m) == AutoName(n)
    ensures m == n
  {
    var pre := "checkpoint-";
    assert (pre + Padded(m))[|pre|..] == Padded(m) && (pre + Padded(n))[|pre|..] == Padded(n);
    PaddedValue(m);
    PaddedValue(n);
  }

  // "checkpoint-" and at least four digits, which read as the counter.
  lemma AutoNameSays(n: nat)
    ensures |AutoName(n)| >= 15 && AutoName(n)[..11] == "checkpoint-"
    ensures IsDigits(AutoName(n)[11..]) && ValueOf(AutoName(n)[11..]) == n
    ensures n < 10000 ==> |AutoName(n)| == 15
  {
    var pre, s := "checkpoint-", Decimal(n);
    assert AutoName(n)[11..] == Padded(n);
    PaddedValue(n);
    DecimalDigits(n);
    ZerosDigits(4 - |s|);
    ZerosLength(4 - |s|);
    DecimalLength(n, 4);
  }

  lemma {:induction false} ZerosLength(n: int)
    ensures n >= 0 ==> |Zeros(n)| == n
  {
    if n > 0 {
      ZerosLength(n - 1);
    }
  }

  lemma {:induction false} DecimalLength(n: nat, d: nat)
    requires d > 0
    ensures n < Pow10(d) ==> |Decimal(n)| <= d
  {
    if n >= 10 && d > 1 {
      DecimalLength(n / 10, d - 1);
    }
    assert Pow10(1) == 10 * Pow10(0) == 10;
  }

  function Pow10(d: nat): nat {
    if d == 0 then 1 else 10 * Pow10(d - 1)
  }

  // ---------- Records ----------

  datatype Kind = Training | Sampler

  // One value for each kind of checkpoint.
  datatype PerKind<T> = PerKind(training: T, sampler: T) {
    function Of(k: Kind): T {
      if k.Training? then training else sampler
    }

    function With(k: Kind, t: T): PerKind<T> {
      if k.Training? then PerKind(t, sampler) else PerKind(training, t)
    }
  }

  lemma PerKindSays<T>(p: PerKind<T>, k: Kind, other: Kind, t: T)
    ensures p.With(k, t).Of(k) == t
    ensures other != k ==> p.With(k, t).Of(other) == p.Of(other)
  {
  }

  // number: the counter value the server named it after; none for a client's name.
  datatype Checkpoint = Checkpoint(futureId: int, seqId: Option<int>, number: Option<nat>)

  type Folder = map<string, Checkpoint>

  datatype RunRecord = RunRecord(nextSeq: int, next: PerKind<nat>)

  // Automatically named checkpoints lie below the counter.
  ghost predicate BelowCounter(folder: Folder, next: nat) {
    forall name :: name in folder && folder[name].number.Some? ==>
                     name == AutoName(folder[name].number.value) && folder[name].number.value < next
  }

  // An automatic name is already taken exactly when the client chose that very name.
  lemma AutoNameTakenExactlyByClient(folder: Folder, next: nat)
    requires BelowCounter(folder, next)
    ensures AutoName(next) in folder <==> AutoName(next) in folder && folder[AutoName(next)].number == None
  {
    if AutoName(next) in folder && folder[AutoName(next)].number.Some? {
      AutoNameInjective(folder[AutoName(next)].number.value, next);
      assert false;
    }
  }

  // ---------- What a write to the store does to a folder ----------

  // The records under other keys than this name's: escaped names can coincide.
  function Kept(folder: Folder, name: string): Folder {
    map other | other in folder && Escape(other) != Escape(name) :: folder[other]
  }

  function Written(folder: Folder, name: string, ckpt: Checkpoint): Folder {
    Kept(folder, name)[name := ckpt]
  }

  // No other name of the folder has this name's key.
  ghost predicate OwnsKey(folder: Folder, name: string) {
    forall other :: other in folder && Escape(other) == Escape(name) ==> other == name
  }

  // A write or a deletion under the key concerns the one name exactly when no other shares the key.
  lemma WritesOneNameExactly(folder: Folder, name: string, ckpt: Checkpoint)
    ensures Written(folder, name, ckpt) == folder[name := ckpt] <==> OwnsKey(folder, name)
    ensures Kept(folder, name) == folder - {name} <==> OwnsKey(folder, name)
    ensures !OwnsKey(folder, name) ==> Written(folder, name, ckpt) != folder && Kept(folder, name) != folder
  {
    if other :| other in folder && Escape(other) == Escape(name) && other != name {
      assert other !in Written(folder, name, ckpt) && other !in Kept(folder, name);
      assert other in folder[name := ckpt] && other in folder - {name};
    } else {
      assert Written(folder, name, ckpt) == folder[name := ckpt];
      assert Kept(folder, name) == folder - {name};
    }
  }

  // No client's name, however spelled, shares the key of an automatic one.
  lemma AutoNameOwnsKey(folder: Folder, n: nat)
    ensures OwnsKey(folder, AutoName(n))
  {
    AutoNamePlain(n);
    forall other | other in folder && Escape(other) == Escape(AutoName(n))
      ensures other == AutoName(n)
    {
      PlainNameOwnsKey(AutoName(n), other);
    }
  }

  lemma AutoNamePlain(n: nat)
    ensures ':' !in AutoName(n) && '_' !in AutoName(n)
  {
    DecimalDigits(n);
    ZerosDigits(4 - |Decimal(n)|);
    assert IsDigits(Padded(n));
  }

  lemma {:induction false} ZerosDigits(n: int)
    ensures n >= 0 ==> IsDigits(Zeros(n))
  {
    if n > 0 {
      ZerosDigits(n - 1);
    }
  }

  // `name or f"checkpoint-{counter:04d}"`: an empty name counts as none.
  function ChosenName(name: Option<string>, counter: nat): string {
    if name.Some? && name.value != "" then name.value else AutoName(counter)
  }

  function NumberOf(name: Option<string>, counter: nat): Option<nat> {
    if name.Some? && name.value != "" then None else Some(counter)
  }

  // ---------- Where the request holding the run's lock stands ----------

  datatype Phase =
    | Idle
    | Working(seqId: Option<int>)                                             // awaiting some other operation
    | Saving(seqId: Option<int>, kind: Kind, name: string, ckpt: Checkpoint)  // awaiting the backend
    | Stored(seqId: Option<int>, kind: Kind, name: string)                    // in memory, not yet committed
    | Returned(seqId: Option<int>)                                            // the operation is done
    | Counted                                                                 // next_seq_id is up to date

  datatype Answer = Accepted | Conflict(expected: int, got: int)

  // In memory, what a restart would load, and the numbers of all automatic checkpoints ever committed.
  datatype State = State(run: RunRecord, folders: PerKind<Folder>, phase: Phase, saved: RunRecord, savedFolders: PerKind<Folder>,
                         everSaved: PerKind<set<nat>>)

  function HeldSeq(p: Phase): Option<int> {
    match p
    case Working(s) => s
    case Saving(s, _, _, _) => s
    case Stored(s, _, _) => s
    case Returned(s) => s
    case _ => None
  }

  ghost predicate Invariant(s: State) {
    && (forall k :: BelowCounter(s.folders.Of(k), s.run.next.Of(k)))
    && (forall k :: BelowCounter(s.savedFolders.Of(k), s.saved.next.Of(k)))
    && (forall k :: s.saved.next.Of(k) <= s.run.next.Of(k))
    && (forall k, n :: n in s.everSaved.Of(k) ==> n < s.saved.next.Of(k))
    && (s.phase.Saving? ==>
          s.phase.ckpt.number.Some? ==> s.phase.name == AutoName(s.phase.ckpt.number.value) && s.phase.ckpt.number.value < s.run.next.Of(s.phase.kind))
    && (HeldSeq(s.phase).Some? ==> HeldSeq(s.phase).value == s.run.nextSeq)
    && s.saved.nextSeq <= s.run.nextSeq <= s.saved.nextSeq + 1
    && (!s.phase.Counted? ==> s.run.nextSeq == s.saved.nextSeq)
  }

  // A persisted pair whose counters exceed its own automatic checkpoints and all of these numbers.
  ghost predicate Reloadable(run: RunRecord, folders: PerKind<Folder>, numbers: PerKind<set<nat>>) {
    && (forall k :: BelowCounter(folders.Of(k), run.next.Of(k)))
    && (forall k, n :: n in numbers.Of(k) ==> n < run.next.Of(k))
  }

  function Committed(s: State): State
    requires s.phase.Stored?
  {
    var k, name, folder := s.phase.kind, s.phase.name, s.folders.Of(s.phase.kind);
    var s' := s.(saved := s.run, phase := Returned(s.phase.seqId));
    if name in folder then
      s'.(savedFolders := s.savedFolders.With(k, Written(s.savedFolders.Of(k), name, folder[name])),
          everSaved := s.everSaved.With(k, s.everSaved.Of(k) + if folder[name].number.Some? then {folder[name].number.value} else {}))
    else s'
  }

  lemma CommitKeepsInvariant(s: State)
    requires Invariant(s) && s.phase.Stored?
    ensures Invariant(Committed(s))
  {
    var s' := Committed(s);
    CounterCovers(s.savedFolders, s.saved.next, s.run.next);
    assert BelowCounter(s.folders.Of(s.phase.kind), s.run.next.Of(s.phase.kind));
    forall k
      ensures BelowCounter(s'.savedFolders.Of(k), s'.saved.next.Of(k))
    {
      assert BelowCounter(s.savedFolders.Of(k), s.run.next.Of(k));
    }
    forall k, n | n in s'.everSaved.Of(k)
      ensures n < s'.saved.next.Of(k)
    {
      assert n in s.everSaved.Of(k) ==> n < s.saved.next.Of(k) <= s.run.next.Of(k);
    }
  }

  // ---------- The steps, on the whole state ----------

  // What one event does, whatever the state; a step that is not enabled is skipped.
  ghost predicate Stepped(e: Event, s: State, s': State) {
    match e
    case EnterE(seqId) =>
      s' == if s.phase.Idle? && (seqId.None? || seqId.value == s.run.nextSeq) then s.(phase := Working(seqId)) else s
    case BeginSaveE(kind, name, futureId) =>
      if !s.phase.Working? then s' == s
      else
        var counter, seqId := s.run.next.Of(kind), s.phase.seqId;
        var named := name.Some? && name.value != "";
        s' == s.(run := s.run.(next := s.run.next.With(kind, counter + 1)),
                 phase := Saving(seqId, kind, if named then name.value else AutoName(counter),
                                 Checkpoint(futureId, seqId, if named then None else Some(counter))))
    case StoreE =>
      if !s.phase.Saving? then s' == s
      else
        var kind, name := s.phase.kind, s.phase.name;
        s' == s.(folders := s.folders.With(kind, s.folders.Of(kind)[name := s.phase.ckpt]), phase := Stored(s.phase.seqId, kind, name))
    case CommitE =>
      if !s.phase.Stored? then s' == s else CommittedAs(s, s')
    case FinishE =>
      s' == if s.phase.Working? then s.(phase := Returned(s.phase.seqId)) else s
    case FailE =>
      s' == if s.phase.Working? || s.phase.Saving? then s.(phase := Idle) else s
    case CountE =>
      s' == if s.phase.Returned? then
              s.(run := s.run.(nextSeq := s.run.nextSeq + if s.phase.seqId.Some? then 1 else 0), phase := Counted)
            else s
    case LeaveE =>
      s' == if s.phase.Counted? then s.(saved := s.run, phase := Idle) else s
    case SaveRecordE =>
      s' == s.(saved := s.run)
    case ForgetE(kind, id) =>
      s' == s.(folders := s.folders.With(kind, s.folders.Of(kind) - {id}))
    case EraseE(kind, id) =>
      s' == s.(savedFolders := s.savedFolders.With(kind, Kept(s.savedFolders.Of(kind), id)))
    case CrashE =>
      s' == s.(run := s.saved, folders := s.savedFolders, phase := Idle)
  }

  // Both records, or the run's alone when the checkpoint is gone.
  ghost predicate CommittedAs(s: State, s': State)
    requires s.phase.Stored?
  {
    var kind, name := s.phase.kind, s.phase.name;
    if name !in s.folders.Of(kind) then s' == s.(saved := s.run, phase := Returned(s.phase.seqId))
    else
      var ckpt := s.folders.Of(kind)[name];
      && s' == s.(saved := s.run, phase := Returned(s.phase.seqId), everSaved := s'.everSaved,
                  savedFolders := s.savedFolders.With(kind, Written(s.savedFolders.Of(kind), name, ckpt)))
      && s'.everSaved == s.everSaved.With(kind, s.everSaved.Of(kind) + if ckpt.number.Some? then {ckpt.number.value} else {})
  }

  // One state before each event and one after the last.
  ghost predicate IsTrace(events: seq<Event>, trace: seq<State>) {
    && |trace| == |events| + 1
    && forall i :: 0 <= i < |events| ==> Stepped(events[i], trace[i], trace[i + 1])
  }

  lemma TraceNext(events: seq<Event>, i: nat, trace: seq<State>, s: State)
    requires i < |events| && IsTrace(events[..i], trace) && Stepped(events[i], trace[i], s)
    ensures IsTrace(events[..i + 1], trace + [s])
  {
    forall j | 0 <= j < i + 1
      ensures Stepped(events[..i + 1][j], (trace + [s])[j], (trace + [s])[j + 1])
    {
      if j < i {
        assert Stepped(events[..i][j], trace[j], trace[j + 1]);
      }
    }
  }

  // Sequence ids committed since the process started, from the id it started at.
  ghost predicate Consecutive(committed: seq<int>, base: int, next: int) {
    next == base + |committed| && forall i :: 0 <= i < |committed| ==> committed[i] == base + i
  }

  class TrainingRun {
    var run: RunRecord
    var folders: PerKind<Folder>
    var phase: Phase
    var saved: RunRecord
    var savedFolders: PerKind<Folder>
    ghost var everSaved: PerKind<set<nat>>
    ghost var base: int
    ghost var committed: seq<int>

    ghost function Look(): State
      reads this
    {
      State(run, folders, phase, saved, savedFolders, everSaved)
    }

    ghost predicate Valid()
      reads this
    {
      Invariant(Look()) && Consecutive(committed, base, run.nextSeq)
    }

    // A new run, persisted by create_model.
    constructor ()
      ensures Valid() && phase == Idle && run == RunRecord(1, PerKind(1, 1)) && saved == run && base == 1 && committed == []
    {
      run, saved := RunRecord(1, PerKind(1, 1)), RunRecord(1, PerKind(1, 1));
      folders, savedFolders, everSaved := PerKind(map[], map[]), PerKind(map[], map[]), PerKind({}, {});
      phase := Idle;
      base, committed := 1, [];
    }

    // A run read back from the store by a new process.
    constructor Reopened(run: RunRecord, folders: PerKind<Folder>, ghost everSaved: PerKind<set<nat>>)
      requires Reloadable(run, folders, everSaved)
      ensures Valid() && phase == Idle && this.run == saved == run && this.folders == savedFolders == folders
      ensures this.everSaved == everSaved && base == run.nextSeq && committed == []
    {
      this.run, saved, this.folders, savedFolders, this.everSaved := run, run, folders, folders, everSaved;
      phase := Idle;
      base, committed := run.nextSeq, [];
    }

    // Entering the guard: a sequenced request must carry the next id, or nothing happens.
    method Enter(seqId: Option<int>) returns (r: Answer)
      requires Valid() && phase == Idle
      modifies this`phase
      ensures Valid()
      ensures r == Accepted <==> seqId.None? || seqId.value == run.nextSeq
      ensures r != Accepted ==> r == Conflict(run.nextSeq, seqId.value) && phase == Idle
      ensures r == Accepted ==> phase == Working(seqId)
      ensures Stepped(EnterE(seqId), old(Look()), Look())
    {
      if seqId.Some? && seqId.value != run.nextSeq {
        return Conflict(run.nextSeq, seqId.value);
      }
      phase := Working(seqId);
      r := Accepted;
    }

    // save_checkpoint's operation up to the backend call: name it and take the counter.
    method BeginSave(kind: Kind, name: Option<string>, futureId: int)
      requires Valid() && phase.Working?
      modifies this`run, this`phase
      ensures Valid() && run == old(run).(next := old(run).next.With(kind, old(run).next.Of(kind) + 1))
      ensures phase == Saving(old(phase).seqId, kind, ChosenName(name, old(run).next.Of(kind)),
                              Checkpoint(futureId, old(phase).seqId, NumberOf(name, old(run).next.Of(kind))))
      ensures Stepped(BeginSaveE(kind, name, futureId), old(Look()), Look())
      ensures phase.ckpt.number.Some? && phase.name in folders.Of(kind) ==> folders.Of(kind)[phase.name].number == None
      ensures phase.ckpt.number.Some? ==> phase.ckpt.number.value !in everSaved.Of(kind)
    {
      var counter := run.next.Of(kind);
      AutoNameTakenExactlyByClient(folders.Of(kind), counter);
      CounterRises(folders, run.next, kind);
      run := run.(next := run.next.With(kind, counter + 1));
      phase := Saving(phase.seqId, kind, ChosenName(name, counter), Checkpoint(futureId, phase.seqId, NumberOf(name, counter)));
    }

    // The backend has written the weights; the record joins the in-memory folder.
    method StoreCheckpoint()
      requires Valid() && phase.Saving?
      modifies this`folders, this`phase
      ensures Valid() && phase == Stored(old(phase).seqId, old(phase).kind, old(phase).name)
      ensures folders == old(folders).With(old(phase).kind, old(folders).Of(old(phase).kind)[old(phase).name := old(phase).ckpt])
    {
      var folder := folders.Of(phase.kind)[phase.name := phase.ckpt];
      folders := folders.With(phase.kind, folder);
      phase := Stored(phase.seqId, phase.kind, phase.name);
    }

    // One transaction: the run record and the checkpoint, or the run record alone
    // if the checkpoint has been deleted meanwhile.
    method Commit()
      requires Valid() && phase.Stored?
      modifies this`saved, this`savedFolders, this`phase, this`everSaved
      ensures Valid() && saved == run && phase == Returned(old(phase).seqId)
      ensures forall k :: old(everSaved).Of(k) <= everSaved.Of(k)
      ensures old(phase).name in folders.Of(old(phase).kind) && folders.Of(old(phase).kind)[old(phase).name].number.Some? ==>
                folders.Of(old(phase).kind)[old(phase).name].number.value in everSaved.Of(old(phase).kind)
      ensures var k, name := old(phase).kind, old(phase).name;
              savedFolders == if name in folders.Of(k)
                              then old(savedFolders).With(k, Written(old(savedFolders).Of(k), name, folders.Of(k)[name]))
                              else old(savedFolders)
      ensures Stepped(CommitE, old(Look()), Look())
    {
      var k, name := phase.kind, phase.name;
      CommitKeepsInvariant(Look());
      saved := run;
      if name in folders.Of(k) {
        var ckpt := folders.Of(k)[name];
        savedFolders := savedFolders.With(k, Written(savedFolders.Of(k), name, ckpt));
        everSaved := everSaved.With(k, everSaved.Of(k) + if ckpt.number.Some? then {ckpt.number.value} else {});
      }
      phase := Returned(phase.seqId);
    }

    // Any other guarded operation returns.
    method FinishWork()
      requires Valid() && phase.Working?
      modifies this`phase
      ensures Valid() && phase == Returned(old(phase).seqId)
    {
      phase := Returned(phase.seqId);
    }

    // The operation raises: the lock is released and nothing of it is persisted or counted.
    method Fail()
      requires Valid() && (phase.Working? || phase.Saving?)
      modifies this`phase
      ensures Valid() && phase == Idle
    {
      phase := Idle;
    }

    method Count()
      requires Valid() && phase.Returned?
      modifies this`run, this`phase, this`committed
      ensures Valid() && phase == Counted && run.next == old(run).next
      ensures old(phase).seqId.None? ==> run == old(run) && committed == old(committed)
      ensures old(phase).seqId.Some? ==> run.nextSeq == old(run).nextSeq + 1 && committed == old(committed) + [old(phase).seqId.value]
    {
      if phase.seqId.Some? {
        committed := committed + [phase.seqId.value];
        run := run.(nextSeq := run.nextSeq + 1);
      }
      phase := Counted;
    }

    // The guard's own save, after which the lock is released.
    method Leave()
      requires Valid() && phase == Counted
      modifies this`saved, this`phase
      ensures Valid() && saved == run && phase == Idle
    {
      CounterCovers(savedFolders, saved.next, run.next);
      saved := run;
      phase := Idle;
    }

    // Other requests persist the run record at any time (activity, deletion).
    method SaveRecord()
      requires Valid()
      modifies this`saved
      ensures Valid() && saved == run
    {
      CounterCovers(savedFolders, saved.next, run.next);
      saved := run;
    }

    // delete_checkpoint, in memory by its name and then in the store by its key.
    method Forget(kind: Kind, name: string)
      requires Valid()
      modifies this`folders
      ensures Valid() && folders == old(folders).With(kind, old(folders).Of(kind) - {name})
    {
      folders := folders.With(kind, folders.Of(kind) - {name});
    }

    method Erase(kind: Kind, name: string)
      requires Valid()
      modifies this`savedFolders
      ensures Valid() && savedFolders == old(savedFolders).With(kind, Kept(old(savedFolders).Of(kind), name))
    {
      savedFolders := savedFolders.With(kind, Kept(savedFolders.Of(kind), name));
    }

    // The process dies and restarts from the store.
    method CrashAndRestore()
      requires Valid()
      modifies this`run, this`folders, this`phase, this`base, this`committed
      ensures Valid() && run == saved && folders == savedFolders && phase == Idle && committed == [] && base == saved.nextSeq
    {
      run, folders, phase := saved, savedFolders, Idle;
      base, committed := saved.nextSeq, [];
    }
  }

  datatype Event =
    | EnterE(seqId: Option<int>) | BeginSaveE(kind: Kind, name: Option<string>, futureId: int) | StoreE | CommitE
    | FinishE | FailE | CountE | LeaveE | SaveRecordE | ForgetE(kind: Kind, id: string) | EraseE(kind: Kind, id: string) | CrashE

  // The steps that write to the store.
  predicate Persists(e: Event) {
    e.CommitE? || e.LeaveE? || e.SaveRecordE? || e.EraseE?
  }

  // One atomic step, if it is enabled.
  method Step(t: TrainingRun, e: Event)
    requires t.Valid()
    modifies t
    ensures t.Valid() && Stepped(e, old(t.Look()), t.Look())
    ensures !e.CrashE? ==> t.base == old(t.base) && old(t.committed) <= t.committed
    ensures forall k :: old(t.everSaved).Of(k) <= t.everSaved.Of(k)
    ensures !Persists(e) ==> t.saved == old(t.saved) && t.savedFolders == old(t.savedFolders) && t.everSaved == old(t.everSaved)
  {
    match e {
      case EnterE(seqId) =>
        if t.phase == Idle {
          var _ := t.Enter(seqId);
        }
      case BeginSaveE(kind, name, futureId) =>
        if t.phase.Working? {
          t.BeginSave(kind, name, futureId);
        }
      case StoreE =>
        if t.phase.Saving? {
          t.StoreCheckpoint();
        }
      case CommitE =>
        if t.phase.Stored? {
          t.Commit();
        }
      case FinishE =>
        if t.phase.Working? {
          t.FinishWork();
        }
      case FailE =>
        if t.phase.Working? || t.phase.Saving? {
          t.Fail();
        }
      case CountE =>
        if t.phase.Returned? {
          t.Count();
        }
      case LeaveE =>
        if t.phase == Counted {
          t.Leave();
        }
      case SaveRecordE =>
        t.SaveRecord();
      case ForgetE(kind, name) =>
        t.Forget(kind, name);
      case EraseE(kind, name) =>
        t.Erase(kind, name);
      case CrashE =>
        t.CrashAndRestore();
    }
  }

  // Any interleaving of steps, crashes included: a restart loads counters above
  // every automatic checkpoint ever committed, and between crashes the ids that
  // commit are consecutive.
  method Run(t: TrainingRun, events: seq<Event>) returns (ghost trace: seq<State>)
    requires t.Valid()
    modifies t
    ensures t.Valid() && IsTrace(events, trace) && trace[0] == old(t.Look()) && trace[|events|] == t.Look()
    ensures forall k, n :: n in old(t.everSaved).Of(k) ==> n < t.saved.next.Of(k)
    ensures (forall i :: 0 <= i < |events| ==> !events[i].CrashE?) ==> t.base == old(t.base) && old(t.committed) <= t.committed
    ensures Consecutive(t.committed, t.base, t.run.nextSeq) && t.saved.nextSeq <= t.run.nextSeq <= t.saved.nextSeq + 1
  {
    trace := [t.Look()];
    assert events[..0] == [];
    for i := 0 to |events|
      invariant t.Valid() && IsTrace(events[..i], trace) && trace[0] == old(t.Look()) && trace[i] == t.Look()
      invariant forall k :: old(t.everSaved).Of(k) <= t.everSaved.Of(k)
      invariant (forall j :: 0 <= j < i ==> !events[j].CrashE?) ==> t.base == old(t.base) && old(t.committed) <= t.committed
    {
      Step(t, events[i]);
      TraceNext(events, i, trace, t.Look());
      trace := trace + [t.Look()];
    }
    assert events[..|events|] == events;
  }

  lemma CounterRises(folders: PerKind<Folder>, next: PerKind<nat>, kind: Kind)
    requires forall k :: BelowCounter(folders.Of(k), next.Of(k))
    ensures forall k :: BelowCounter(folders.Of(k), next.With(kind, next.Of(kind) + 1).Of(k))
  {
  }

  lemma CounterCovers(folders: PerKind<Folder>, next: PerKind<nat>, next': PerKind<nat>)
    requires forall k :: BelowCounter(folders.Of(k), next.Of(k))
    requires forall k :: next.Of(k) <= next'.Of(k)
    ensures forall k :: BelowCounter(folders.Of(k), next'.Of(k))
  {
    forall k
      ensures BelowCounter(folders.Of(k), next'.Of(k))
    {
      assert BelowCounter(folders.Of(k), next.Of(k)) && next.Of(k) <= next'.Of(k);
    }
  }
}
