// The file-backed store with expiring keys and its pipeline
// (src/tuft/persistence/file_redis.py).
module FileRedis {
  import opened Wrappers

  datatype Entry = Entry(value: string, expiresAt: Option<real>)

  type Table = map<string, Entry>

  // The JSON file and the temporary file beside it, which a crash may leave torn.
  datatype TmpFile = NoTmp | Torn | Whole(table: Table)

  datatype Disk = Disk(file: Option<Table>, tmp: TmpFile)

  // What _load reads: the temporary file is never looked at.
  function Image(disk: Disk): Table {
    if disk.file.Some? then disk.file.value else map[]
  }

  // `entry.expires_at and entry.expires_at <= now`: an expiry of exactly 0.0 is falsy.
  predicate Expired(e: Entry, now: real) {
    e.expiresAt.Some? && e.expiresAt.value != 0.0 && e.expiresAt.value <= now
  }

  // ---------- What the store does to its table, and the log of it ----------

  // Writes, and the purges that get, exists and scan_iter begin with.
  datatype Write =
    | Put(key: string, value: string)
    | PutFor(key: string, value: string, at: real, ttl: real)
    | Remove(keys: set<string>)
    | Sweep(now: real)

  predicate Touches(w: Write, key: string) {
    match w
    case Put(k, _) => k == key
    case PutFor(k, _, _, _) => k == key
    case Remove(ks) => key in ks
    case Sweep(_) => false
  }

  function Applied(data: Table, w: Write): Table {
    match w
    case Put(k, v) => data[k := Entry(v, None)]
    case PutFor(k, v, at, ttl) => data[k := Entry(v, Some(at + ttl))]
    case Remove(ks) => data - ks
    case Sweep(now) => Purged(data, now)
  }

  function Purged(data: Table, now: real): Table {
    map key | key in data && !Expired(data[key], now) :: data[key]
  }

  function AppliedAll(data: Table, ws: seq<Write>): Table {
    if ws == [] then data else Applied(AppliedAll(data, ws[..|ws| - 1]), ws[|ws| - 1])
  }

  function Replay(log: seq<Write>): Table {
    AppliedAll(map[], log)
  }

  lemma {:induction false} AppliedAppend(data: Table, a: seq<Write>, b: seq<Write>)
    ensures AppliedAll(data, a + b) == AppliedAll(AppliedAll(data, a), b)
  {
    if b == [] {
      assert a + b == a;
    } else {
      AppliedAppend(data, a, b[..|b| - 1]);
      assert (a + b)[..|a + b| - 1] == a + b[..|b| - 1];
    }
  }

  // ---------- The abstract store: the last write to the key, if not yet expired ----------

  function Last(log: seq<Write>, key: string): Option<Write> {
    if log == [] then None
    else if Touches(log[|log| - 1], key) then Some(log[|log| - 1])
    else Last(log[..|log| - 1], key)
  }

  function AnswerOf(w: Option<Write>, now: real): Option<string> {
    match w
    case Some(Put(_, v)) => Some(v)
    case Some(PutFor(_, v, at, ttl)) => if at + ttl > now then Some(v) else None
    case _ => None
  }

  function Answer(log: seq<Write>, key: string, now: real): Option<string> {
    AnswerOf(Last(log, key), now)
  }

  // ---------- What the table holds, key by key ----------

  function EntryOf(w: Option<Write>): Option<Entry> {
    match w
    case Some(Put(_, v)) => Some(Entry(v, None))
    case Some(PutFor(_, v, at, ttl)) => Some(Entry(v, Some(at + ttl)))
    case _ => None
  }

  predicate ExpiredBy(w: Option<Write>, now: real) {
    EntryOf(w).Some? && Expired(EntryOf(w).value, now)
  }

  // Some purge since the key's last write found it expired.
  predicate Swept(log: seq<Write>, key: string) {
    log != [] && !Touches(log[|log| - 1], key)
    && (Swept(log[..|log| - 1], key)
        || (log[|log| - 1].Sweep? && ExpiredBy(Last(log[..|log| - 1], key), log[|log| - 1].now)))
  }

  function Held(log: seq<Write>, key: string): Option<Entry> {
    if Swept(log, key) then None else EntryOf(Last(log, key))
  }

  function Shown(data: Table, key: string): Option<Entry> {
    if key in data then Some(data[key]) else None
  }

  // Replaying the log leaves each key with its last write, unless it has been swept since.
  lemma {:induction false} ReplayHolds(log: seq<Write>, key: string)
    ensures Shown(Replay(log), key) == Held(log, key)
  {
    if log != [] {
      ReplayHolds(log[..|log| - 1], key);
    }
  }

  function ValueOf(e: Option<Entry>): Option<string> {
    if e.Some? then Some(e.value.value) else None
  }

  // An expiry of exactly 0.0 is never noticed.
  predicate NeverExpires(w: Option<Write>) {
    w.Some? && w.value.PutFor? && w.value.at + w.value.ttl == 0.0
  }

  // A purge has dropped the key, and the clock has since been set back before its expiry.
  predicate SetBack(log: seq<Write>, key: string, now: real) {
    Swept(log, key) && Answer(log, key, now).Some?
  }

  // Reading a key gives the last write, if not yet expired, if and only if its expiry is not
  // the instant 0.0 in the past and the clock has not gone back over an expiry already swept.
  lemma ServedAsSpecifiedExactly(log: seq<Write>, key: string, now: real)
    ensures ValueOf(Held(log + [Sweep(now)], key)) == Answer(log, key, now)
       <==> !(NeverExpires(Last(log, key)) && now >= 0.0) && !SetBack(log, key, now)
  {
    var log' := log + [Sweep(now)];
    assert log'[..|log'| - 1] == log;
    assert Last(log', key) == Last(log, key);
    if Swept(log, key) {
      SweptMeansExpiring(log, key);
    }
  }

  lemma {:induction false} SweptMeansExpiring(log: seq<Write>, key: string)
    requires Swept(log, key)
    ensures EntryOf(Last(log, key)).Some? && !NeverExpires(Last(log, key)) && Last(log, key).value.PutFor?
  {
    if Swept(log[..|log| - 1], key) {
      SweptMeansExpiring(log[..|log| - 1], key);
    }
  }

  // A clock that never goes back: no purge has read more than `now`.
  predicate ReadUpTo(log: seq<Write>, now: real) {
    forall i :: 0 <= i < |log| && log[i].Sweep? ==> log[i].now <= now
  }

  lemma {:induction false} SteadyClockIsNeverSetBack(log: seq<Write>, key: string, now: real)
    requires ReadUpTo(log, now)
    ensures !SetBack(log, key, now)
  {
    if Swept(log, key) {
      SweptIsExpired(log, key, now);
    }
  }

  lemma {:induction false} SweptIsExpired(log: seq<Write>, key: string, now: real)
    requires ReadUpTo(log, now) && Swept(log, key)
    ensures Answer(log, key, now) == None
  {
    var init := log[..|log| - 1];
    assert forall i :: 0 <= i < |init| ==> init[i] == log[i];
    if Swept(init, key) {
      SweptIsExpired(init, key, now);
    }
  }

  // ---------- The store ----------

  // Whatever moment the process dies at, the file holds the table from before or the one from after.
  ghost predicate CrashSafe(history: seq<Disk>, history': seq<Disk>, before: Table, after: Table) {
    && history <= history'
    && forall i :: |history| <= i < |history'| ==> Image(history'[i]) == before || Image(history'[i]) == after
  }

  lemma ReplayNext(log: seq<Write>, w: Write)
    ensures Replay(log + [w]) == Applied(Replay(log), w)
  {
    assert (log + [w])[..|log|] == log;
  }

  class Store {
    var data: Table
    var disk: Disk
    ghost var history: seq<Disk>
    ghost var log: seq<Write>

    // The file, the table and the log agree.
    ghost predicate Valid()
      reads this
    {
      Image(disk) == data && data == Replay(log)
    }

    // Opening an existing file: whatever log the file shows, the store shows.
    constructor (disk: Disk, ghost log: seq<Write>)
      requires Image(disk) == Replay(log)
      ensures Valid() && data == Image(disk) && this.disk == disk && this.log == log && history == []
    {
      data := Image(disk);
      this.disk, this.log, history := disk, log, [];
    }

    // Write the temporary file, then rename it over the old one.
    method Dump()
      modifies this`disk, this`history
      ensures disk == Disk(Some(data), NoTmp)
      ensures CrashSafe(old(history), history, Image(old(disk)), data)
    {
      disk := disk.(tmp := Torn);
      history := history + [disk];
      disk := disk.(tmp := Whole(data));
      history := history + [disk];
      disk := Disk(Some(data), NoTmp);
      history := history + [disk];
    }

    method PurgeExpired(now: real)
      requires Valid()
      modifies this
      ensures Valid() && data == Purged(old(data), now) && log == old(log) + [Sweep(now)]
      ensures PurgedAt(old(data), now, data)
      ensures CrashSafe(old(history), history, old(data), data)
    {
      ReplayNext(log, Sweep(now));
      log := log + [Sweep(now)];
      var purged := Purged(data, now);
      if exists key :: key in data && Expired(data[key], now) {
        data := purged;
        Dump();
      }
    }

    method Set(key: string, value: string)
      requires Valid()
      modifies this
      ensures Valid() && data == Applied(old(data), Put(key, value)) && log == old(log) + [Put(key, value)]
      ensures data == old(data)[key := Entry(value, None)]
      ensures CrashSafe(old(history), history, old(data), data)
    {
      ReplayNext(log, Put(key, value));
      data := data[key := Entry(value, None)];
      log := log + [Put(key, value)];
      Dump();
    }

    method SetEx(key: string, ttl: real, value: string, now: real)
      requires Valid()
      modifies this
      ensures Valid() && data == Applied(old(data), PutFor(key, value, now, ttl)) && log == old(log) + [PutFor(key, value, now, ttl)]
      ensures data == old(data)[key := Entry(value, Some(now + ttl))]
      ensures CrashSafe(old(history), history, old(data), data)
    {
      ReplayNext(log, PutFor(key, value, now, ttl));
      data := data[key := Entry(value, Some(now + ttl))];
      log := log + [PutFor(key, value, now, ttl)];
      Dump();
    }

    // The count is of the keys that were still in the table, expired or not.
    method Delete(keys: seq<string>) returns (removed: nat)
      requires Valid()
      modifies this
      ensures Valid() && data == Applied(old(data), Remove(KeySet(keys))) && log == old(log) + [Remove(KeySet(keys))]
      ensures data.Keys == old(data).Keys - (set k | k in keys) && forall k :: k in data ==> data[k] == old(data)[k]
      ensures removed == |old(data).Keys * KeySet(keys)|
      ensures CrashSafe(old(history), history, old(data), data)
    {
      removed := PopAll(keys);
      ghost var w := Remove(KeySet(keys));
      assert data == Applied(old(data), w);
      ReplayNext(log, w);
      log := log + [w];
      if removed > 0 {
        Dump();
      }
    }

    method PopAll(keys: seq<string>) returns (removed: nat)
      modifies this`data
      ensures data == old(data) - KeySet(keys) && removed == |old(data).Keys * KeySet(keys)|
      ensures removed == 0 ==> data == old(data)
    {
      removed := 0;
      for i := 0 to |keys|
        invariant Popped(old(data), keys[..i], data, removed)
      {
        PoppedNext(old(data), keys, i, data, removed);
        if keys[i] in data {
          data := data - {keys[i]};
          removed := removed + 1;
        }
      }
      assert keys[..|keys|] == keys;
    }

    // get, exists and scan_iter purge first, and then answer from what is left.
    method Get(key: string, now: real) returns (r: Option<string>)
      requires Valid()
      modifies this
      ensures Valid() && data == Purged(old(data), now) && log == old(log) + [Sweep(now)]
      ensures r == ValueOf(Held(log, key))
      ensures r == if key in old(data) && Alive(old(data)[key], now) then Some(old(data)[key].value) else None
      ensures CrashSafe(old(history), history, old(data), data)
    {
      PurgeExpired(now);
      ReplayHolds(log, key);
      r := if key in data then Some(data[key].value) else None;
    }

    method Exists(key: string, now: real) returns (r: nat)
      requires Valid()
      modifies this
      ensures Valid() && data == Purged(old(data), now) && log == old(log) + [Sweep(now)]
      ensures r == if ValueOf(Held(log, key)).Some? then 1 else 0
      ensures r == if key in old(data) && Alive(old(data)[key], now) then 1 else 0
      ensures CrashSafe(old(history), history, old(data), data)
    {
      PurgeExpired(now);
      ReplayHolds(log, key);
      r := if key in data then 1 else 0;
    }

    method Scan(matches: string -> bool, now: real) returns (keys: set<string>)
      requires Valid()
      modifies this
      ensures Valid() && data == Purged(old(data), now) && log == old(log) + [Sweep(now)]
      ensures forall k :: k in keys <==> matches(k) && ValueOf(Held(log, k)).Some?
      ensures forall k :: k in keys <==> matches(k) && k in old(data) && Alive(old(data)[k], now)
      ensures CrashSafe(old(history), history, old(data), data)
    {
      PurgeExpired(now);
      keys := set k | k in data && matches(k);
      forall k
        ensures k in keys <==> matches(k) && ValueOf(Held(log, k)).Some?
      {
        ReplayHolds(log, k);
      }
    }
  }

  // Without an expiry, with the falsy one, or with one still to come.
  ghost predicate Alive(e: Entry, now: real) {
    match e.expiresAt
    case None => true
    case Some(t) => t == 0.0 || now < t
  }

  ghost predicate PurgedAt(before: Table, now: real, after: Table) {
    && (forall k :: k in after <==> k in before && Alive(before[k], now))
    && (forall k :: k in after ==> after[k] == before[k])
  }

  function KeySet(keys: seq<string>): set<string> {
    set k | k in keys
  }

  lemma KeysUpTo(keys: seq<string>, i: nat)
    requires i < |keys|
    ensures KeySet(keys[..i + 1]) == KeySet(keys[..i]) + {keys[i]}
  {
    assert keys[..i + 1] == keys[..i] + [keys[i]];
  }

  // What pop has left of the table once these keys have been visited.
  ghost predicate Popped(before: Table, keys: seq<string>, now: Table, removed: nat) {
    now == before - KeySet(keys) && removed == |before.Keys * KeySet(keys)| && (removed == 0 ==> now == before)
  }

  lemma PoppedNext(before: Table, keys: seq<string>, i: nat, now: Table, removed: nat)
    requires i < |keys| && Popped(before, keys[..i], now, removed)
    ensures if keys[i] in now then Popped(before, keys[..i + 1], now - {keys[i]}, removed + 1)
            else Popped(before, keys[..i + 1], now, removed)
  {
    KeysUpTo(keys, i);
    OneMoreKey(before.Keys, KeySet(keys[..i]), keys[i]);
    OneMoreRemoved(before, KeySet(keys[..i]), keys[i]);
  }

  lemma OneMoreRemoved(table: Table, some: set<string>, k: string)
    ensures table - (some + {k}) == if k in table - some then table - some - {k} else table - some
  {
  }

  lemma OneMoreKey<T>(all: set<T>, some: set<T>, k: T)
    ensures |all * (some + {k})| == |all * some| + if k in all && k !in some then 1 else 0
  {
    if k in all && k !in some {
      assert all * (some + {k}) == all * some + {k};
    } else {
      assert all * (some + {k}) == all * some;
    }
  }

  // ---------- The pipeline ----------

  datatype Queued = QSet(key: string, value: string) | QSetEx(key: string, ttl: real, value: string) | QDelete(keys: seq<string>)

  function WriteOf(q: Queued, now: real): Write {
    match q
    case QSet(k, v) => Put(k, v)
    case QSetEx(k, ttl, v) => PutFor(k, v, now, ttl)
    case QDelete(ks) => Remove(KeySet(ks))
  }

  function WritesOf(qs: seq<Queued>, nows: seq<real>): seq<Write>
    requires |nows| == |qs|
  {
    seq(|qs|, i requires 0 <= i < |qs| => WriteOf(qs[i], nows[i]))
  }

  // What a queued operation does to the table when it is executed.
  ghost predicate Obeys(q: Queued, now: real, before: Table, after: Table) {
    match q
    case QSet(k, v) => after == before[k := Entry(v, None)]
    case QSetEx(k, ttl, v) => after == before[k := Entry(v, Some(now + ttl))]
    case QDelete(ks) =>
      after.Keys == before.Keys - (set k | k in ks) && forall k :: k in after ==> after[k] == before[k]
  }

  // The tables between the queued operations, from the first to the last.
  ghost predicate InTurn(qs: seq<Queued>, nows: seq<real>, tables: seq<Table>)
    requires |nows| == |qs|
  {
    |tables| == |qs| + 1 && forall i :: 0 <= i < |qs| ==> Obeys(qs[i], nows[i], tables[i], tables[i + 1])
  }

  lemma {:induction false} WritesObey(qs: seq<Queued>, nows: seq<real>, data: Table) returns (tables: seq<Table>)
    requires |nows| == |qs|
    ensures InTurn(qs, nows, tables) && tables[0] == data && tables[|qs|] == AppliedAll(data, WritesOf(qs, nows))
  {
    if qs == [] {
      tables := [data];
    } else {
      var n := |qs| - 1;
      tables := WritesObey(qs[..n], nows[..n], data);
      WritesSnoc(qs, nows, data, n);
      assert qs[..n + 1] == qs && nows[..n + 1] == nows;
      tables := tables + [Applied(tables[n], WriteOf(qs[n], nows[n]))];
      assert Obeys(qs[n], nows[n], tables[n], tables[n + 1]);
    }
  }

  lemma WritesSnoc(qs: seq<Queued>, nows: seq<real>, data: Table, i: nat)
    requires |nows| == |qs| && i < |qs|
    ensures WritesOf(qs[..i + 1], nows[..i + 1]) == WritesOf(qs[..i], nows[..i]) + [WriteOf(qs[i], nows[i])]
    ensures AppliedAll(data, WritesOf(qs[..i + 1], nows[..i + 1])) == Applied(AppliedAll(data, WritesOf(qs[..i], nows[..i])), WriteOf(qs[i], nows[i]))
  {
    var ws := WritesOf(qs[..i + 1], nows[..i + 1]);
    assert ws[..i] == WritesOf(qs[..i], nows[..i]);
  }

  class Pipeline {
    const store: Store
    var ops: seq<Queued>

    constructor (store: Store)
      ensures this.store == store && ops == []
    {
      this.store, ops := store, [];
    }

    method Queue(q: Queued)
      modifies this`ops
      ensures ops == old(ops) + [q]
    {
      ops := ops + [q];
    }

    // Leaving the with block: nothing happens when it raised.
    method Exit(raised: bool, nows: seq<real>)
      requires store.Valid() && |nows| == |ops|
      modifies this, store
      ensures store.Valid()
      ensures raised ==> store.data == old(store.data) && store.disk == old(store.disk) && store.log == old(store.log)
      ensures !raised ==> store.data == AppliedAll(old(store.data), WritesOf(old(ops), nows)) && ops == []
      ensures !raised ==> store.log == old(store.log) + WritesOf(old(ops), nows)
      ensures CrashSafe(old(store.history), store.history, old(store.data), store.data)
    {
      if !raised {
        Execute(nows);
      }
    }

    // All queued operations, then one dump: a crash shows all of them or none.
    method Execute(nows: seq<real>)
      requires store.Valid() && |nows| == |ops|
      modifies this, store
      ensures store.Valid() && ops == []
      ensures store.data == AppliedAll(old(store.data), WritesOf(old(ops), nows))
      ensures store.log == old(store.log) + WritesOf(old(ops), nows)
      ensures CrashSafe(old(store.history), store.history, old(store.data), store.data)
    {
      AppliedAppend(map[], store.log, WritesOf(ops, nows));
      ApplyQueued(nows);
      store.log := store.log + WritesOf(ops, nows);
      if ops != [] {
        store.Dump();
      }
      ops := [];
    }

    method ApplyQueued(nows: seq<real>)
      requires |nows| == |ops|
      modifies store`data
      ensures store.data == AppliedAll(old(store.data), WritesOf(ops, nows))
    {
      for i := 0 to |ops|
        invariant store.data == AppliedAll(old(store.data), WritesOf(ops[..i], nows[..i]))
      {
        WritesSnoc(ops, nows, old(store.data), i);
        ApplyOne(ops[i], nows[i]);
      }
      assert ops[..|ops|] == ops && nows[..|ops|] == nows;
    }

    method ApplyOne(q: Queued, now: real)
      modifies store`data
      ensures store.data == Applied(old(store.data), WriteOf(q, now)) && Obeys(q, now, old(store.data), store.data)
    {
      match q {
        case QSet(k, v) =>
          store.data := store.data[k := Entry(v, None)];
        case QSetEx(k, ttl, v) =>
          store.data := store.data[k := Entry(v, Some(now + ttl))];
        case QDelete(ks) =>
          var _ := store.PopAll(ks);
      }
    }
  }

  method Perform(store: Store, q: Queued, now: real)
    requires store.Valid()
    modifies store
    ensures store.Valid()
    ensures store.data == Applied(old(store.data), WriteOf(q, now)) && store.log == old(store.log) + [WriteOf(q, now)]
    ensures Obeys(q, now, old(store.data), store.data)
    ensures CrashSafe(old(store.history), store.history, old(store.data), store.data)
  {
    match q {
      case QSet(k, v) =>
        store.Set(k, v);
      case QSetEx(k, ttl, v) =>
        store.SetEx(k, ttl, v, now);
      case QDelete(ks) =>
        var _ := store.Delete(ks);
    }
  }

  // The same operations one by one leave the same table and the same log as the pipeline.
  method Sequentially(store: Store, qs: seq<Queued>, nows: seq<real>)
    requires store.Valid() && |nows| == |qs|
    modifies store
    ensures store.Valid()
    ensures store.data == AppliedAll(old(store.data), WritesOf(qs, nows)) && store.log == old(store.log) + WritesOf(qs, nows)
  {
    for i := 0 to |qs|
      invariant store.Valid()
      invariant store.data == AppliedAll(old(store.data), WritesOf(qs[..i], nows[..i]))
      invariant store.log == old(store.log) + WritesOf(qs[..i], nows[..i])
    {
      WritesSnoc(qs, nows, old(store.data), i);
      Perform(store, qs[i], nows[i]);
    }
    assert qs[..|qs|] == qs && nows[..|qs|] == nows;
  }

  // ---------- Crashes over whole runs ----------

  datatype Op = One(q: Queued, now: real) | Batch(qs: seq<Queued>, nows: seq<real>) | Read(key: string, now: real)

  // One reading of the clock for every queued operation.
  predicate Timed(op: Op) {
    op.Batch? ==> |op.nows| == |op.qs|
  }

  // What an operation adds to the log.
  function OpWrites(op: Op): seq<Write>
    requires Timed(op)
  {
    match op
    case One(q, now) => [WriteOf(q, now)]
    case Batch(qs, nows) => WritesOf(qs, nows)
    case Read(_, now) => [Sweep(now)]
  }

  function Flat(wss: seq<seq<Write>>): seq<Write> {
    if wss == [] then [] else Flat(wss[..|wss| - 1]) + wss[|wss| - 1]
  }

  method Do(store: Store, op: Op)
    requires store.Valid() && Timed(op)
    modifies store
    ensures store.Valid() && store.log == old(store.log) + OpWrites(op)
    ensures DoneBy(op, old(store.data), store.data)
    ensures CrashSafe(old(store.history), store.history, old(store.data), store.data)
  {
    match op {
      case One(q, now) =>
        Perform(store, q, now);
      case Batch(qs, nows) =>
        var pipe := new Pipeline(store);
        pipe.ops := qs;
        pipe.Exit(false, nows);
        ghost var tables := WritesObey(qs, nows, old(store.data));
      case Read(key, now) =>
        var _ := store.Get(key, now);
    }
  }

  // A single operation, several in one, or a read with its purge.
  ghost predicate DoneBy(op: Op, before: Table, after: Table) {
    match op
    case One(q, now) => Obeys(q, now, before, after)
    case Batch(qs, nows) =>
      |nows| == |qs| && exists tables :: InTurn(qs, nows, tables) && tables[0] == before && tables[|qs|] == after
    case Read(_, now) => PurgedAt(before, now, after)
  }

  // The log after the first k operations.
  function LogAfter(log: seq<Write>, wss: seq<seq<Write>>, k: nat): seq<Write>
    requires k <= |wss|
  {
    log + Flat(wss[..k])
  }

  // Disk contents history[starts[k]..starts[k + 1]] arose during operation k, and each of
  // them shows the log after k operations or after k + 1.
  ghost predicate DuringOp(history: seq<Disk>, starts: seq<nat>, log: seq<Write>, wss: seq<seq<Write>>, k: nat)
    requires k < |wss| && |starts| == |wss| + 1
  {
    && starts[k] <= starts[k + 1] <= |history|
    && forall i :: starts[k] <= i < starts[k + 1] ==> ShowsEither(history[i], Replay(LogAfter(log, wss, k)), Replay(LogAfter(log, wss, k + 1)))
  }

  ghost predicate ShowsEither(disk: Disk, before: Table, after: Table) {
    Image(disk) == before || Image(disk) == after
  }

  ghost predicate WholeOps(history: seq<Disk>, starts: seq<nat>, log: seq<Write>, wss: seq<seq<Write>>) {
    && |starts| == |wss| + 1 && starts[|wss|] == |history|
    && forall k :: 0 <= k < |wss| ==> DuringOp(history, starts, log, wss, k)
  }

  ghost predicate AllTimed(ops: seq<Op>) {
    forall i :: 0 <= i < |ops| ==> Timed(ops[i])
  }

  ghost predicate Issued(ops: seq<Op>, wss: seq<seq<Write>>)
    requires AllTimed(ops)
  {
    |wss| == |ops| && forall i :: 0 <= i < |ops| ==> wss[i] == OpWrites(ops[i])
  }

  lemma IssuedNext(ops: seq<Op>, wss: seq<seq<Write>>)
    requires ops != [] && AllTimed(ops) && Issued(ops[..|ops| - 1], wss)
    ensures Issued(ops, wss + [OpWrites(ops[|ops| - 1])])
  {
  }

  // Over any run, a crash at any moment leaves a file that, reopened, shows the log after
  // exactly the operations completed by then, or those and the one under way, batches included.
  method Run(store: Store, ops: seq<Op>) returns (ghost wss: seq<seq<Write>>, ghost starts: seq<nat>)
    requires store.Valid() && AllTimed(ops)
    modifies store
    ensures Issued(ops, wss)
    ensures store.Valid() && store.log == LogAfter(old(store.log), wss, |wss|) && old(store.history) <= store.history
    ensures WholeOps(store.history, starts, old(store.log), wss) && starts[0] == |old(store.history)|
    decreases |ops|
  {
    if ops == [] {
      wss, starts := [], [|store.history|];
      assert old(store.log) + [] == old(store.log);
      return;
    }
    var n := |ops| - 1;
    assert AllTimed(ops[..n]) && Timed(ops[n]);
    wss, starts := Run(store, ops[..n]);
    ghost var before, history, log := store.data, store.history, store.log;
    ghost var ws := OpWrites(ops[n]);
    Do(store, ops[n]);
    OneMoreOp(old(store.log), wss, ws, starts, history, store.history, before, store.data);
    IssuedNext(ops, wss);
    wss, starts := wss + [ws], starts + [|store.history|];
  }

  lemma OneMoreOp(log: seq<Write>, wss: seq<seq<Write>>, ws: seq<Write>, starts: seq<nat>, history: seq<Disk>, history': seq<Disk>,
                  before: Table, after: Table)
    requires WholeOps(history, starts, log, wss) && CrashSafe(history, history', before, after)
    requires before == Replay(LogAfter(log, wss, |wss|)) && after == Replay(LogAfter(log, wss, |wss|) + ws)
    ensures LogAfter(log, wss + [ws], |wss| + 1) == LogAfter(log, wss, |wss|) + ws
    ensures WholeOps(history', starts + [|history'|], log, wss + [ws])
  {
    var n, more, marks := |wss|, wss + [ws], starts + [|history'|];
    assert more[..n] == wss && more[..n + 1] == more && wss[..n] == wss;
    assert Flat(more) == Flat(wss) + ws;
    assert LogAfter(log, more, n + 1) == LogAfter(log, wss, n) + ws;
    assert LogAfter(log, more, n) == LogAfter(log, wss, n);
    forall k | 0 <= k < |more|
      ensures DuringOp(history', marks, log, more, k)
    {
      if k < n {
        assert DuringOp(history, starts, log, wss, k);
        OpStays(log, wss, ws, starts, history, history', k);
      } else {
        forall i | marks[n] <= i < marks[n + 1]
          ensures ShowsEither(history'[i], Replay(LogAfter(log, more, n)), Replay(LogAfter(log, more, n + 1)))
        {
          assert |history| <= i < |history'|;
        }
      }
    }
  }

  lemma OpStays(log: seq<Write>, wss: seq<seq<Write>>, ws: seq<Write>, starts: seq<nat>, history: seq<Disk>, history': seq<Disk>, k: nat)
    requires |starts| == |wss| + 1 && k < |wss| && history <= history' && DuringOp(history, starts, log, wss, k)
    ensures DuringOp(history', starts + [|history'|], log, wss + [ws], k)
  {
    assert (wss + [ws])[..k] == wss[..k] && (wss + [ws])[..k + 1] == wss[..k + 1];
    forall i | starts[k] <= i < starts[k + 1]
      ensures ShowsEither(history'[i], Replay(LogAfter(log, wss, k)), Replay(LogAfter(log, wss, k + 1)))
    {
      assert history'[i] == history[i];
    }
  }
}
