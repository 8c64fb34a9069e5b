// Tasks run in order of their sequence id, one at a time: SequenceExecutor
// (src/tuft/sequence_executor.py), as atomic steps between awaits.
module SequenceExecutor {
  import opened Wrappers

  // A submission: its ticket is its own, its sequence id the client's.
  datatype Task = Task(ticket: nat, seqId: int)

  datatype Outcome = Returned(value: int) | Raised(error: int)

  // How an awaited function ends; a CancelledError is no Exception and passes the handler.
  datatype Ending = Ended(outcome: Outcome) | Cancelled

  // What the submitter's future holds; a timed-out future has been cancelled by wait_for.
  datatype Future = Waiting | Done(outcome: Outcome) | TimedOut

  // A live _process_tasks coroutine: about to take the lock, or awaiting a task.
  datatype Processor = AtLock | Running(task: Task)

  // ---------- heapq on a list ----------

  function Parent(i: int): int {
    (i - 1) / 2
  }

  ghost predicate Below(h: seq<Task>, i: int)
    requires 0 < i < |h|
  {
    h[Parent(i)].seqId <= h[i].seqId
  }

  ghost predicate IsHeap(h: seq<Task>) {
    forall i :: 0 < i < |h| ==> Below(h, i)
  }

  lemma {:induction false} RootIsLeast(h: seq<Task>, i: nat)
    requires IsHeap(h) && i < |h|
    ensures h[0].seqId <= h[i].seqId
  {
    if i > 0 {
      RootIsLeast(h, Parent(i));
      assert Below(h, i);
    }
  }

  // A heap but for the item at pos, which may be smaller than its parent.
  ghost predicate TooSmallAt(h: seq<Task>, pos: int) {
    && 0 <= pos < |h|
    && (forall i :: 0 < i < |h| && i != pos ==> Below(h, i))
    && (forall i :: 0 < i < |h| && Parent(i) == pos && pos > 0 ==> h[Parent(pos)].seqId <= h[i].seqId)
  }

  // A heap but for the item at pos, which may also be larger than its children.
  ghost predicate UnplacedAt(h: seq<Task>, pos: int) {
    && 0 <= pos < |h|
    && (forall i :: 0 < i < |h| && i != pos && Parent(i) != pos ==> Below(h, i))
    && (forall i :: 0 < i < |h| && Parent(i) == pos && pos > 0 ==> h[Parent(pos)].seqId <= h[i].seqId)
  }

  function Swap(h: seq<Task>, i: int, j: int): seq<Task>
    requires 0 <= i < |h| && 0 <= j < |h|
  {
    h[i := h[j]][j := h[i]]
  }

  lemma SwapKeepsItems(h: seq<Task>, i: int, j: int)
    requires 0 <= i < |h| && 0 <= j < |h|
    ensures multiset(Swap(h, i, j)) == multiset(h)
  {
  }

  lemma SiftDownStep(h: seq<Task>, pos: int)
    requires TooSmallAt(h, pos) && pos > 0 && h[pos].seqId < h[Parent(pos)].seqId
    ensures TooSmallAt(Swap(h, pos, Parent(pos)), Parent(pos))
  {
    var p := Parent(pos);
    var h' := Swap(h, pos, p);
    forall i | 0 < i < |h| && i != p
      ensures Below(h', i)
    {
      if i != pos {
        assert Below(h, i);
      }
    }
    forall i | 0 < i < |h| && Parent(i) == p && p > 0
      ensures h'[Parent(p)].seqId <= h'[i].seqId
    {
      assert Below(h, p);
      if i != pos {
        assert Below(h, i);
      }
    }
  }

  lemma SiftUpStep(h: seq<Task>, pos: int, c: int)
    requires UnplacedAt(h, pos) && 0 < c < |h| && Parent(c) == pos
    requires forall d :: 0 < d < |h| && Parent(d) == pos ==> h[c].seqId <= h[d].seqId
    ensures UnplacedAt(Swap(h, pos, c), c)
  {
    var h' := Swap(h, pos, c);
    forall i | 0 < i < |h| && i != c && Parent(i) != c
      ensures Below(h', i)
    {
      if Parent(i) != pos && i != pos {
        assert Below(h, i);
      }
    }
    forall i | 0 < i < |h| && Parent(i) == c
      ensures h'[Parent(c)].seqId <= h'[i].seqId
    {
      assert Below(h, i);
    }
  }

  // The list with a hole at pos for an item that may be smaller than the hole's parent.
  ghost predicate RisingHole(all: multiset<Task>, h: seq<Task>, pos: int, item: Task) {
    0 <= pos < |h| && TooSmallAt(h[pos := item], pos) && multiset(h[pos := item]) == all
  }

  lemma HoleMovesUp(all: multiset<Task>, h: seq<Task>, pos: int, item: Task)
    requires RisingHole(all, h, pos, item) && pos > 0 && item.seqId < h[Parent(pos)].seqId
    ensures RisingHole(all, h[pos := h[Parent(pos)]], Parent(pos), item)
  {
    var placed := h[pos := item];
    SiftDownStep(placed, pos);
    SwapKeepsItems(placed, pos, Parent(pos));
    assert h[pos := h[Parent(pos)]][Parent(pos) := item] == Swap(placed, pos, Parent(pos));
  }

  lemma HoleFits(all: multiset<Task>, h: seq<Task>, pos: int, item: Task)
    requires RisingHole(all, h, pos, item) && (pos > 0 ==> h[Parent(pos)].seqId <= item.seqId)
    ensures IsHeap(h[pos := item]) && multiset(h[pos := item]) == all
  {
  }

  // _siftdown(heap, 0, pos): parents move down until the item fits.
  method SiftDown(heap: seq<Task>, start: nat) returns (h: seq<Task>)
    requires TooSmallAt(heap, start)
    ensures IsHeap(h) && multiset(h) == multiset(heap)
  {
    h := heap;
    var pos := start;
    var item := h[pos];
    assert h[pos := item] == heap;
    while pos > 0
      invariant RisingHole(multiset(heap), h, pos, item)
    {
      var p := Parent(pos);
      if !(item.seqId < h[p].seqId) {
        break;
      }
      HoleMovesUp(multiset(heap), h, pos, item);
      h := h[pos := h[p]];
      pos := p;
    }
    HoleFits(multiset(heap), h, pos, item);
    h := h[pos := item];
  }

  // The list with a hole at pos for the item.
  ghost predicate Hole(all: multiset<Task>, h: seq<Task>, pos: int, item: Task) {
    0 <= pos < |h| && UnplacedAt(h[pos := item], pos) && multiset(h[pos := item]) == all
  }

  predicate IsSmallerChild(h: seq<Task>, pos: int, c: int) {
    0 < c < |h| && Parent(c) == pos && forall d :: 0 < d < |h| && Parent(d) == pos ==> h[c].seqId <= h[d].seqId
  }

  lemma HoleMovesDown(all: multiset<Task>, h: seq<Task>, pos: int, item: Task, c: int)
    requires Hole(all, h, pos, item) && IsSmallerChild(h, pos, c)
    ensures Hole(all, h[pos := h[c]], c, item)
  {
    var placed := h[pos := item];
    forall d | 0 < d < |h| && Parent(d) == pos
      ensures placed[c].seqId <= placed[d].seqId
    {
    }
    SiftUpStep(placed, pos, c);
    SwapKeepsItems(placed, pos, c);
    assert h[pos := h[c]][c := item] == Swap(placed, pos, c);
  }

  method SmallerChild(h: seq<Task>, pos: nat) returns (c: nat)
    requires 2 * pos + 1 < |h|
    ensures IsSmallerChild(h, pos, c)
  {
    c := 2 * pos + 1;
    if c + 1 < |h| && !(h[c].seqId < h[c + 1].seqId) {
      c := c + 1;
    }
  }

  // _siftup(heap, 0): the smaller child moves up until a leaf is reached, then the item settles.
  method SiftUp(heap: seq<Task>) returns (h: seq<Task>)
    requires heap != [] && UnplacedAt(heap, 0)
    ensures IsHeap(h) && multiset(h) == multiset(heap)
  {
    h := heap;
    var pos := 0;
    var item := h[0];
    assert h[0 := item] == heap;
    while 2 * pos + 1 < |h|
      invariant pos >= 0 && Hole(multiset(heap), h, pos, item)
      decreases |h| - pos
    {
      var c := SmallerChild(h, pos);
      HoleMovesDown(multiset(heap), h, pos, item, c);
      h := h[pos := h[c]];
      pos := c;
    }
    h := SiftDown(h[pos := item], pos);
  }

  method HeapPush(heap: seq<Task>, t: Task) returns (h: seq<Task>)
    requires IsHeap(heap)
    ensures IsHeap(h) && multiset(h) == multiset(heap) + multiset{t}
  {
    h := heap + [t];
    forall i | 0 < i < |h| && i != |heap|
      ensures Below(h, i)
    {
      assert Below(heap, i);
    }
    h := SiftDown(h, |heap|);
  }

  method HeapPop(heap: seq<Task>) returns (t: Task, h: seq<Task>)
    requires IsHeap(heap) && heap != []
    ensures IsHeap(h) && multiset(heap) == multiset(h) + multiset{t}
    ensures forall x :: x in heap ==> t.seqId <= x.seqId
  {
    var n := |heap| - 1;
    var last := heap[n];
    h := heap[..n];
    RootIsLeastOfAll(heap);
    if h == [] {
      assert heap == [last];
      return last, h;
    }
    t := h[0];
    h := h[0 := last];
    LastOnTop(heap, h);
    h := SiftUp(h);
  }

  lemma RootIsLeastOfAll(heap: seq<Task>)
    requires IsHeap(heap) && heap != []
    ensures forall x :: x in heap ==> heap[0].seqId <= x.seqId
  {
    forall x | x in heap
      ensures heap[0].seqId <= x.seqId
    {
      var i :| 0 <= i < |heap| && heap[i] == x;
      RootIsLeast(heap, i);
    }
  }

  lemma LastOnTop(heap: seq<Task>, h: seq<Task>)
    requires IsHeap(heap) && |heap| >= 2 && h == heap[..|heap| - 1][0 := heap[|heap| - 1]]
    ensures UnplacedAt(h, 0) && multiset(heap) == multiset(h) + multiset{heap[0]}
  {
    forall i | 0 < i < |h| && Parent(i) != 0
      ensures Below(h, i)
    {
      assert Below(heap, i);
    }
    assert heap == heap[..|heap| - 1] + [heap[|heap| - 1]];
  }

  // ---------- The executor ----------

  // A task taken from the queue, with everything that was pending at that moment.
  datatype Start = Start(task: Task, queue: multiset<Task>)

  // The task taken from the queue and not executed: the one being awaited, as the invariant
  // allows one processor only, or the one whose cancellation has ended the processor.
  function Underway(ps: seq<Processor>, broken: Option<Task>): seq<Task> {
    if broken.Some? then [broken.value]
    else if ps != [] && ps[0].Running? then [ps[0].task]
    else []
  }

  function StartedTasks(starts: seq<Start>): seq<Task> {
    seq(|starts|, i requires 0 <= i < |starts| => starts[i].task)
  }

  ghost predicate LeastFirst(s: Start) {
    s.task in s.queue && forall x :: x in s.queue ==> s.task.seqId <= x.seqId
  }

  // The state at any point between two steps, with its history.
  datatype Snapshot = Snapshot(pending: seq<Task>, processing: bool, processors: seq<Processor>, futures: map<nat, Future>,
                               submitted: seq<Task>, starts: seq<Start>, executed: seq<Task>, broken: Option<Task>)

  // At most one processor, and one whenever something is queued, unless a cancellation has ended it.
  ghost predicate OneProcessor(pending: seq<Task>, processing: bool, processors: seq<Processor>, broken: Option<Task>) {
    && (processing <==> processors != [] || broken.Some?)
    && |processors| <= 1 && (broken.Some? ==> processors == [])
    && (pending != [] ==> processing)
  }

  // Every submission is queued, underway or executed, exactly once.
  ghost predicate Conserved(submitted: seq<Task>, pending: seq<Task>, underway: seq<Task>, executed: seq<Task>) {
    multiset(submitted) == multiset(pending) + multiset(underway) + multiset(executed)
  }

  // Tasks started one after another, each with the least id then queued.
  ghost predicate InOrder(starts: seq<Start>, underway: seq<Task>, executed: seq<Task>) {
    && StartedTasks(starts) == executed + underway
    && forall i :: 0 <= i < |starts| ==> LeastFirst(starts[i])
  }

  // A future is settled by its task's completion or by its timeout.
  ghost predicate FuturesSettle(futures: map<nat, Future>, submitted: seq<Task>, executed: seq<Task>) {
    && (forall n: nat :: n in futures <==> n < |submitted|)
    && (forall i :: 0 <= i < |submitted| ==> submitted[i].ticket == i)
    && (forall i :: 0 <= i < |submitted| && futures[i].Done? ==> submitted[i] in executed)
    && (forall t :: t in executed ==> t.ticket in futures && futures[t.ticket] != Waiting)
  }

  ghost predicate Invariant(s: Snapshot) {
    && IsHeap(s.pending) && OneProcessor(s.pending, s.processing, s.processors, s.broken)
    && Conserved(s.submitted, s.pending, Underway(s.processors, s.broken), s.executed)
    && InOrder(s.starts, Underway(s.processors, s.broken), s.executed)
    && FuturesSettle(s.futures, s.submitted, s.executed)
  }

  lemma SubmitKeepsFutures(futures: map<nat, Future>, submitted: seq<Task>, executed: seq<Task>, t: Task)
    requires FuturesSettle(futures, submitted, executed) && t.ticket == |submitted|
    ensures FuturesSettle(futures[t.ticket := Waiting], submitted + [t], executed)
  {
    forall i | 0 <= i < |submitted + [t]| && futures[t.ticket := Waiting][i].Done?
      ensures (submitted + [t])[i] in executed
    {
      assert i < |submitted|;
    }
  }

  lemma ExecuteKeepsFutures(futures: map<nat, Future>, submitted: seq<Task>, executed: seq<Task>, t: Task, outcome: Outcome)
    requires FuturesSettle(futures, submitted, executed) && t in submitted
    ensures t.ticket in futures
    ensures FuturesSettle(Settle(futures, t.ticket, outcome), submitted, executed + [t])
  {
    var i :| 0 <= i < |submitted| && submitted[i] == t;
    assert t.ticket == i;
    var futures' := Settle(futures, t.ticket, outcome);
    forall j | 0 <= j < |submitted| && futures'[j].Done?
      ensures submitted[j] in executed + [t]
    {
      if j != i {
        assert futures[j].Done?;
      }
    }
  }

  lemma {:induction false} TicketsCount(futures: map<nat, Future>, n: nat)
    requires forall k: nat :: k in futures <==> k < n
    ensures |futures| == n
  {
    if n == 0 {
      assert futures == map[];
    } else {
      var rest := futures - {n - 1};
      TicketsCount(rest, n - 1);
      assert futures.Keys == rest.Keys + {n - 1};
    }
  }

  lemma StartKeepsOrder(starts: seq<Start>, executed: seq<Task>, s: Start)
    requires InOrder(starts, [], executed) && LeastFirst(s)
    ensures InOrder(starts + [s], [s.task], executed)
  {
    assert StartedTasks(starts + [s]) == StartedTasks(starts) + [s.task];
    assert executed + [] == executed;
  }

  lemma UnderwayWasSubmitted(submitted: seq<Task>, pending: seq<Task>, t: Task, executed: seq<Task>)
    requires Conserved(submitted, pending, [t], executed)
    ensures t in submitted
  {
    assert t in multiset([t]);
    assert t in multiset(submitted);
  }

  // set_result or set_exception, unless the future is already done.
  function Settle(futures: map<nat, Future>, n: nat, outcome: Outcome): map<nat, Future> {
    if n in futures && futures[n] == Waiting then futures[n := Done(outcome)] else futures
  }

  // ---------- Each step keeps the invariant ----------

  lemma SubmitKeepsInvariant(s: Snapshot, s': Snapshot, t: Task)
    requires Invariant(s) && t.ticket == |s.submitted| && IsHeap(s'.pending)
    requires multiset(s'.pending) == multiset(s.pending) + multiset{t}
    requires s' == Snapshot(s'.pending, true, if s.processing then s.processors else s.processors + [AtLock],
                            s.futures[t.ticket := Waiting], s.submitted + [t], s.starts, s.executed, s.broken)
    ensures Invariant(s') && Grows(s, s')
  {
    SubmitKeepsFutures(s.futures, s.submitted, s.executed, t);
  }

  lemma TakeKeepsInvariant(s: Snapshot, s': Snapshot, t: Task)
    requires Invariant(s) && s.processors == [AtLock] && IsHeap(s'.pending)
    requires multiset(s.pending) == multiset(s'.pending) + multiset{t} && LeastFirst(Start(t, multiset(s.pending)))
    requires s' == s.(pending := s'.pending, processors := [Running(t)], starts := s.starts + [Start(t, multiset(s.pending))])
    ensures Invariant(s') && Grows(s, s')
  {
    StartKeepsOrder(s.starts, s.executed, Start(t, multiset(s.pending)));
  }

  lemma OnlyProcessor(s: Snapshot, p: nat)
    requires OneProcessor(s.pending, s.processing, s.processors, s.broken) && p < |s.processors|
    ensures p == 0 && s.processors == [s.processors[0]] && s.broken.None? && s.processing
  {
  }

  lemma StopKeepsInvariant(s: Snapshot)
    requires Invariant(s) && s.processors == [AtLock] && s.pending == []
    ensures Invariant(s.(processing := false, processors := []))
  {
  }

  lemma CompleteKeepsInvariant(s: Snapshot, s': Snapshot, t: Task, outcome: Outcome)
    requires Invariant(s) && s.processors == [Running(t)]
    requires s' == s.(processors := [AtLock], executed := s.executed + [t], futures := Settle(s.futures, t.ticket, outcome))
    ensures t.ticket in s.futures && Invariant(s') && Grows(s, s')
  {
    UnderwayWasSubmitted(s.submitted, s.pending, t, s.executed);
    ExecuteKeepsFutures(s.futures, s.submitted, s.executed, t, outcome);
    assert s.executed + [t] + [] == s.executed + [t];
  }

  lemma TimeOutKeepsInvariant(s: Snapshot, n: nat)
    requires Invariant(s) && n in s.futures && s.futures[n] == Waiting
    ensures Invariant(s.(futures := s.futures[n := TimedOut]))
  {
    TimeOutKeepsFutures(s.futures, s.submitted, s.executed, n);
  }

  lemma TimeOutKeepsFutures(futures: map<nat, Future>, submitted: seq<Task>, executed: seq<Task>, n: nat)
    requires FuturesSettle(futures, submitted, executed) && n in futures
    ensures FuturesSettle(futures[n := TimedOut], submitted, executed)
  {
  }

  // The processor dies with its flag still up.
  lemma BreakKeepsInvariant(s: Snapshot, t: Task)
    requires Invariant(s) && s.processors == [Running(t)]
    ensures Invariant(s.(processors := [], broken := Some(t)))
  {
  }

  // ---------- The steps, on the whole state ----------

  // A processor takes the lock: it starts a task with the least id, or stops on an empty queue.
  ghost predicate PassedLock(s: Snapshot, s': Snapshot) {
    if s.pending == [] then s' == s.(processing := false, processors := [])
    else exists t :: t in s.pending && Started(s, s', t)
  }

  ghost predicate Started(s: Snapshot, s': Snapshot, t: Task) {
    && (forall x :: x in s.pending ==> t.seqId <= x.seqId)
    && multiset(s.pending) == multiset(s'.pending) + multiset{t}
    && s' == s.(pending := s'.pending, processors := [Running(t)], starts := s.starts + [Start(t, multiset(s.pending))])
  }

  // What one event does, whatever the state.
  ghost predicate Stepped(e: Event, s: Snapshot, s': Snapshot) {
    match e
    case Arrive(seqId) =>
      if exists x :: x in s.pending && x.seqId == seqId then s' == s
      else
        var t := Task(|s.submitted|, seqId);
        && multiset(s'.pending) == multiset(s.pending) + multiset{t}
        && s' == Snapshot(s'.pending, true, if s.processing then s.processors else [AtLock], s.futures[t.ticket := Waiting],
                          s.submitted + [t], s.starts, s.executed, s.broken)
    case Proceed(ending) =>
      if s.processors == [] then s' == s
      else
        (match s.processors[0]
         case AtLock => PassedLock(s, s')
         case Running(t) =>
           match ending
           case Ended(outcome) =>
             s' == s.(processors := [AtLock], executed := s.executed + [t],
                      futures := if t.ticket in s.futures && s.futures[t.ticket] == Waiting then s.futures[t.ticket := Done(outcome)]
                                 else s.futures)
           case Cancelled => s' == s.(processors := [], broken := Some(t)))
    case GiveUp(n) =>
      s' == if n in s.futures && s.futures[n] == Waiting then s.(futures := s.futures[n := TimedOut]) else s
  }

  // One state before each event and one after the last.
  ghost predicate IsTrace(events: seq<Event>, trace: seq<Snapshot>) {
    && |trace| == |events| + 1
    && forall i :: 0 <= i < |events| ==> Stepped(events[i], trace[i], trace[i + 1])
  }

  // The i-th event is a function's end with this outcome, which answers the waiting future n.
  ghost predicate Answers(events: seq<Event>, trace: seq<Snapshot>, i: nat, n: nat, outcome: Outcome)
    requires IsTrace(events, trace) && i < |events|
  {
    && events[i] == Proceed(Ended(outcome)) && trace[i].processors != [] && trace[i].processors[0].Running?
    && trace[i].processors[0].task.ticket == n && n in trace[i].futures && trace[i].futures[n] == Waiting
    && trace[i + 1].executed == trace[i].executed + [trace[i].processors[0].task]
  }

  lemma TraceNext(events: seq<Event>, i: nat, trace: seq<Snapshot>, s: Snapshot)
    requires i < |events| && IsTrace(events[..i], trace) && Stepped(events[i], trace[i], s)
    ensures IsTrace(events[..i + 1], trace + [s])
  {
    forall j | 0 <= j < i + 1
      ensures Stepped(events[..i + 1][j], (trace + [s])[j], (trace + [s])[j + 1])
    {
      if j < i {
        assert Stepped(events[..i][j], trace[j], trace[j + 1]);
      }
    }
  }

  // A future holds an outcome only because its own task ended with that outcome.
  lemma {:induction false} DoneByOwnTask(events: seq<Event>, trace: seq<Snapshot>, n: nat, outcome: Outcome)
    requires IsTrace(events, trace)
    requires n in trace[|events|].futures && trace[|events|].futures[n] == Done(outcome)
    ensures (n in trace[0].futures && trace[0].futures[n] == Done(outcome)) || exists i :: 0 <= i < |events| && Answers(events, trace, i, n, outcome)
  {
    if events != [] {
      var k := |events| - 1;
      assert Stepped(events[k], trace[k], trace[k + 1]);
      if n in trace[k].futures && trace[k].futures[n] == Done(outcome) {
        var es, ts := events[..k], trace[..k + 1];
        DoneByOwnTask(es, ts, n, outcome);
        if i :| 0 <= i < k && Answers(es, ts, i, n, outcome) {
          assert Answers(events, trace, i, n, outcome);
        }
      } else {
        assert Answers(events, trace, k, n, outcome);
      }
    }
  }

  // These tasks' waiting futures have got their functions' outcomes; no other future has changed.
  ghost predicate Answered(f: map<nat, Future>, order: seq<Task>, f': map<nat, Future>, endings: Task -> Ending) {
    && f'.Keys == f.Keys
    && (forall t :: t in order && t.ticket in f && f[t.ticket] == Waiting ==> endings(t).Ended? && f'[t.ticket] == Done(endings(t).outcome))
    && (forall n :: n in f && (f[n] != Waiting || forall t :: t in order ==> t.ticket != n) ==> f'[n] == f[n])
  }

  lemma AnsweredOneMore(f: map<nat, Future>, t: Task, f1: map<nat, Future>, rest: seq<Task>, f2: map<nat, Future>, endings: Task -> Ending)
    requires endings(t).Ended? && Answered(f1, rest, f2, endings)
    requires f1 == if t.ticket in f && f[t.ticket] == Waiting then f[t.ticket := Done(endings(t).outcome)] else f
    requires forall x :: x in rest && x.ticket == t.ticket ==> x == t
    ensures Answered(f, [t] + rest, f2, endings)
  {
    forall n | n in f && (f[n] != Waiting || forall x :: x in [t] + rest ==> x.ticket != n)
      ensures f2[n] == f[n]
    {
      if f[n] == Waiting {
        assert t in [t] + rest;
        assert forall x :: x in rest ==> x in [t] + rest;
      }
    }
  }

  // A ticket is one task's.
  lemma OneTicketOneTask(s: Snapshot, a: Task, b: Task)
    requires Invariant(s) && a in s.executed && b in s.executed && a.ticket == b.ticket
    ensures a == b
  {
    assert a in multiset(s.executed) && b in multiset(s.executed);
    assert a in multiset(s.submitted) && b in multiset(s.submitted);
    OnceSubmitted(s.submitted, a);
    OnceSubmitted(s.submitted, b);
  }

  lemma TicketsApart(s: Snapshot, before: seq<Task>, t: Task, rest: seq<Task>)
    requires Invariant(s) && s.executed == before + ([t] + rest)
    ensures forall x :: x in rest && x.ticket == t.ticket ==> x == t
  {
    forall x | x in rest && x.ticket == t.ticket
      ensures x == t
    {
      assert t in [t] + rest && x in [t] + rest;
      OneTicketOneTask(s, x, t);
    }
  }

  // Futures are settled at most once.
  ghost predicate SettledStay(f: map<nat, Future>, f': map<nat, Future>) {
    forall n :: n in f && f[n] != Waiting ==> n in f' && f'[n] == f[n]
  }

  // What has happened stays.
  ghost predicate Grows(s: Snapshot, s': Snapshot) {
    && s.submitted <= s'.submitted && s.starts <= s'.starts && s.executed <= s'.executed
    && SettledStay(s.futures, s'.futures)
  }

  lemma GrowsOn(s: Snapshot, s': Snapshot, s'': Snapshot)
    ensures Grows(s, s)
    ensures Grows(s, s') && Grows(s', s'') ==> Grows(s, s'')
  {
  }

  class Executor {
    var pending: seq<Task>
    var processing: bool
    var processors: seq<Processor>
    var futures: map<nat, Future>
    ghost var submitted: seq<Task>
    ghost var starts: seq<Start>
    ghost var executed: seq<Task>
    ghost var broken: Option<Task>

    ghost function Look(): Snapshot
      reads this
    {
      Snapshot(pending, processing, processors, futures, submitted, starts, executed, broken)
    }

    ghost predicate Valid()
      reads this
    {
      Invariant(Look())
    }

    constructor ()
      ensures Valid() && pending == [] && submitted == [] && executed == [] && broken == None
    {
      pending, processing, processors, futures, submitted, starts, executed, broken := [], false, [], map[], [], [], [], None;
    }

    // submit() up to its await: queue the task, and start a processor unless one is live.
    // Equal ids may not be queued together: Python would go on to compare the functions.
    method Submit(seqId: int) returns (t: Task)
      requires Valid() && forall x :: x in pending ==> x.seqId != seqId
      modifies this
      ensures Valid()
      ensures t == Task(|old(submitted)|, seqId) && submitted == old(submitted) + [t]
      ensures multiset(pending) == multiset(old(pending)) + multiset{t}
      ensures processors == if old(processors) == [] && broken.None? then [AtLock] else old(processors)
      ensures futures == old(futures)[t.ticket := Waiting]
      ensures executed == old(executed) && starts == old(starts) && broken == old(broken)
      ensures Stepped(Arrive(seqId), old(Look()), Look()) && Grows(old(Look()), Look())
    {
      TicketsCount(futures, |submitted|);
      t := Task(|futures|, seqId);
      Enqueue(t);
      SubmitKeepsInvariant(old(Look()), Look(), t);
    }

    method Enqueue(t: Task)
      requires IsHeap(pending)
      modifies this`pending, this`futures, this`submitted, this`processing, this`processors
      ensures IsHeap(pending) && multiset(pending) == multiset(old(pending)) + multiset{t}
      ensures futures == old(futures)[t.ticket := Waiting] && submitted == old(submitted) + [t]
      ensures processing && processors == if old(processing) then old(processors) else old(processors) + [AtLock]
    {
      pending := HeapPush(pending, t);
      futures := futures[t.ticket := Waiting];
      submitted := submitted + [t];
      if !processing {
        processing := true;
        processors := processors + [AtLock];
      }
    }

    // One pass of the processor through the locked section.
    method TakeNext(p: nat)
      requires Valid() && p < |processors| && processors[p] == AtLock
      modifies this
      ensures Valid() && futures == old(futures) && submitted == old(submitted) && executed == old(executed) && broken == old(broken)
      ensures PassedLock(old(Look()), Look()) && Grows(old(Look()), Look())
      ensures old(pending) == [] ==> !processing && processors == [] && starts == old(starts)
      ensures old(pending) != [] ==>
                && |starts| == |old(starts)| + 1 && starts[..|old(starts)|] == old(starts)
                && processors == [Running(starts[|old(starts)|].task)]
                && starts[|old(starts)|].queue == multiset(old(pending))
                && multiset(old(pending)) == multiset(pending) + multiset{starts[|old(starts)|].task}
    {
      OnlyProcessor(Look(), p);
      if pending == [] {
        StopKeepsInvariant(Look());
        processing := false;
        processors := processors[..p] + processors[p + 1..];
      } else {
        var t := TakeLeast(p);
        TakeKeepsInvariant(old(Look()), Look(), t);
        assert t in multiset(old(pending));
        assert Started(old(Look()), Look(), t);
      }
    }

    method TakeLeast(p: nat) returns (t: Task)
      requires IsHeap(pending) && pending != [] && p < |processors|
      modifies this`pending, this`processors, this`starts
      ensures IsHeap(pending) && multiset(old(pending)) == multiset(pending) + multiset{t}
      ensures LeastFirst(Start(t, multiset(old(pending)))) && starts == old(starts) + [Start(t, multiset(old(pending)))]
      ensures processors == old(processors)[p := Running(t)]
    {
      ghost var queue := multiset(pending);
      t, pending := HeapPop(pending);
      processors := processors[p := Running(t)];
      starts := starts + [Start(t, queue)];
    }

    // The awaited function returned or raised; the future is set unless it has timed out.
    method Complete(p: nat, outcome: Outcome)
      requires Valid() && p < |processors| && processors[p].Running?
      modifies this
      ensures Valid() && pending == old(pending) && submitted == old(submitted) && starts == old(starts) && broken == old(broken)
      ensures executed == old(executed) + [old(processors)[p].task] && processors == [AtLock]
      ensures var n := old(processors)[p].task.ticket;
              n in old(futures) && futures == if old(futures)[n] == Waiting then old(futures)[n := Done(outcome)] else old(futures)
      ensures Stepped(Proceed(Ended(outcome)), old(Look()), Look()) && Grows(old(Look()), Look())
    {
      OnlyProcessor(Look(), p);
      var t := processors[p].task;
      if t.ticket in futures && futures[t.ticket] == Waiting {
        futures := futures[t.ticket := Done(outcome)];
      }
      executed := executed + [t];
      processors := processors[p := AtLock];
      CompleteKeepsInvariant(old(Look()), Look(), t, outcome);
    }

    // The awaited function raised CancelledError: the coroutine ends, with _processing still up
    // and the future unset.
    method Break(p: nat)
      requires Valid() && p < |processors| && processors[p].Running?
      modifies this`processors, this`broken
      ensures Valid() && processors == [] && processing && broken == Some(old(processors)[p].task)
      ensures Stepped(Proceed(Cancelled), old(Look()), Look())
    {
      OnlyProcessor(Look(), p);
      BreakKeepsInvariant(Look(), processors[p].task);
      broken := Some(processors[p].task);
      processors := processors[..p] + processors[p + 1..];
    }

    // wait_for gives up: the future is cancelled, the task stays queued or running.
    method TimeOut(n: nat)
      requires Valid() && n in futures && futures[n] == Waiting
      modifies this`futures
      ensures Valid() && futures == old(futures)[n := TimedOut]
      ensures Stepped(GiveUp(n), old(Look()), Look()) && Grows(old(Look()), Look())
    {
      TimeOutKeepsInvariant(Look(), n);
      futures := futures[n := TimedOut];
    }

    // ---------- Runs ----------

    // Any interleaving of the steps; a step that is not enabled is skipped.  Without a
    // cancelled function the processor is never broken, and once it is broken no task starts
    // or completes any more.
    method Run(events: seq<Event>) returns (ghost trace: seq<Snapshot>)
      requires Valid()
      modifies this
      ensures Valid() && Grows(old(Look()), Look())
      ensures IsTrace(events, trace) && trace[0] == old(Look()) && trace[|events|] == Look()
      ensures old(broken).None? && (forall i :: 0 <= i < |events| ==> events[i] != Proceed(Cancelled)) ==> broken.None?
      ensures old(broken).Some? ==> Halted(old(Look()), Look())
    {
      trace := [Look()];
      HaltedStays(Look(), Look(), Look());
      GrowsOn(Look(), Look(), Look());
      assert events[..0] == [];
      for i := 0 to |events|
        invariant Valid() && Grows(old(Look()), Look())
        invariant IsTrace(events[..i], trace) && trace[0] == old(Look()) && trace[i] == Look()
        invariant old(broken).None? && (forall j :: 0 <= j < i ==> events[j] != Proceed(Cancelled)) ==> broken.None?
        invariant old(broken).Some? ==> Halted(old(Look()), Look())
      {
        ghost var before := Look();
        Perform(events[i]);
        HaltedStays(old(Look()), before, Look());
        GrowsOn(old(Look()), before, Look());
        TraceNext(events, i, trace, Look());
        trace := trace + [Look()];
      }
      assert events[..|events|] == events;
    }

    method Perform(e: Event)
      requires Valid()
      modifies this
      ensures Valid() && Stepped(e, old(Look()), Look()) && Grows(old(Look()), Look())
      ensures broken != old(broken) ==>
                e == Proceed(Cancelled) && old(processors) != [] && old(processors)[0].Running? && broken == Some(old(processors)[0].task)
      ensures old(broken).Some? ==> Halted(old(Look()), Look())
    {
      match e
      case Arrive(seqId) =>
        if forall x :: x in pending ==> x.seqId != seqId {
          var _ := Submit(seqId);
        }
      case Proceed(ending) =>
        if processors != [] {
          Advance(ending);
        }
      case GiveUp(n) =>
        if n in futures && futures[n] == Waiting {
          TimeOut(n);
        }
    }

    // The live processor's next step, whichever it is.
    method Advance(ending: Ending)
      requires Valid() && processors != []
      modifies this
      ensures Valid() && Stepped(Proceed(ending), old(Look()), Look()) && Grows(old(Look()), Look())
      ensures broken == if ending.Cancelled? && old(processors)[0].Running? then Some(old(processors)[0].task) else None
    {
      if processors[0] == AtLock {
        TakeNext(0);
      } else if ending.Ended? {
        Complete(0, ending.outcome);
      } else {
        Break(0);
      }
    }

    // Left alone, a live processor empties the queue in ascending order and stops, if and
    // only if no queued function ends cancelled; otherwise the first to do so is the last taken.
    method Drain(endings: Task -> Ending) returns (ghost order: seq<Task>)
      requires Valid() && processors == [AtLock]
      modifies this
      ensures Valid() && processors == [] && submitted == old(submitted)
      ensures executed == old(executed) + order
      ensures Drained(old(pending), order, broken, pending, endings)
      ensures Answered(old(futures), order, futures, endings)
      decreases |pending|
    {
      var t := RunNext(endings);
      if t == None {
        order := [];
      } else {
        TakenOut(old(pending), pending, t.value);
        if endings(t.value).Cancelled? {
          order := [];
        } else {
          ghost var queued, answered := pending, futures;
          var rest := Drain(endings);
          order := [t.value] + rest;
          Assoc(old(executed), [t.value], rest);
          DrainedOneMore(old(pending), queued, t.value, rest, broken, pending, endings);
          TicketsApart(Look(), old(executed), t.value, rest);
          AnsweredOneMore(old(futures), t.value, answered, rest, futures, endings);
        }
      }
    }

    // One task from queue to completion or cancellation, or the end of the processor.
    method RunNext(endings: Task -> Ending) returns (t: Option<Task>)
      requires Valid() && processors == [AtLock]
      modifies this
      ensures Valid() && submitted == old(submitted)
      ensures t == None <==> old(pending) == []
      ensures t == None ==> processors == [] && pending == [] && executed == old(executed) && broken.None? && futures == old(futures)
      ensures t.Some? && endings(t.value).Ended? ==> processors == [AtLock] && executed == old(executed) + [t.value] && broken.None?
      ensures t.Some? && endings(t.value).Ended? ==>
                var n := t.value.ticket;
                futures == if n in old(futures) && old(futures)[n] == Waiting then old(futures)[n := Done(endings(t.value).outcome)] else old(futures)
      ensures t.Some? && endings(t.value).Cancelled? ==> processors == [] && executed == old(executed) && broken == t && futures == old(futures)
      ensures t.Some? ==> multiset(old(pending)) == multiset(pending) + multiset{t.value} && LeastFirst(Start(t.value, multiset(old(pending))))
    {
      TakeNext(0);
      if processors == [] {
        return None;
      }
      t := Some(processors[0].task);
      match endings(t.value) {
        case Ended(outcome) => Complete(0, outcome);
        case Cancelled => Break(0);
      }
    }
  }

  datatype Event = Arrive(seqId: int) | Proceed(ending: Ending) | GiveUp(ticket: nat)

  ghost predicate Ascending(ts: seq<Task>) {
    forall i, j :: 0 <= i < j < |ts| ==> ts[i].seqId <= ts[j].seqId
  }

  lemma Assoc<T>(a: seq<T>, b: seq<T>, c: seq<T>)
    ensures (a + b) + c == a + (b + c)
  {
  }

  lemma TakenOut(q: seq<Task>, q': seq<Task>, t: Task)
    requires multiset(q) == multiset(q') + multiset{t}
    ensures |q'| < |q| && t in q && forall x :: x in q <==> x == t || x in q'
  {
    assert |multiset(q)| == |multiset(q')| + 1;
    assert t in multiset(q);
    forall x
      ensures x in q <==> x == t || x in q'
    {
      assert x in q <==> x in multiset(q);
      assert x in q' <==> x in multiset(q');
    }
  }

  lemma LeastThenAscending(q: seq<Task>, q': seq<Task>, t: Task, rest: seq<Task>, left: seq<Task>)
    requires multiset(q) == multiset(q') + multiset{t} && multiset(q') == multiset(rest) + multiset(left)
    requires LeastFirst(Start(t, multiset(q))) && Ascending(rest)
    ensures Ascending([t] + rest) && multiset([t] + rest) + multiset(left) == multiset(q)
  {
    forall j | 0 <= j < |rest|
      ensures t.seqId <= rest[j].seqId
    {
      assert rest[j] in multiset(rest) && rest[j] in multiset(q);
    }
  }

  // The queue was executed in this order, up to its first function to end cancelled, if any.
  ghost predicate Drained(queue: seq<Task>, order: seq<Task>, broken: Option<Task>, left: seq<Task>, endings: Task -> Ending) {
    && Ascending(order + Underway([], broken))
    && multiset(queue) == multiset(order + Underway([], broken)) + multiset(left)
    && (forall t :: t in order ==> endings(t).Ended?)
    && (if broken.Some? then endings(broken.value).Cancelled? else left == [])
    && (broken.None? <==> forall t :: t in queue ==> endings(t).Ended?)
  }

  lemma DrainedOneMore(q: seq<Task>, q': seq<Task>, t: Task, rest: seq<Task>, broken: Option<Task>, left: seq<Task>, endings: Task -> Ending)
    requires multiset(q) == multiset(q') + multiset{t} && LeastFirst(Start(t, multiset(q)))
    requires Drained(q', rest, broken, left, endings) && endings(t).Ended?
    ensures Drained(q, [t] + rest, broken, left, endings)
  {
    TakenOut(q, q', t);
    Assoc([t], rest, Underway([], broken));
    LeastThenAscending(q, q', t, rest + Underway([], broken), left);
  }

  // Nothing starts and nothing completes any more.
  ghost predicate Halted(s: Snapshot, s': Snapshot) {
    && s'.starts == s.starts && s'.executed == s.executed && s'.broken == s.broken
    && multiset(s.pending) <= multiset(s'.pending)
  }

  lemma HaltedStays(s: Snapshot, s': Snapshot, s'': Snapshot)
    ensures Halted(s, s)
    ensures Halted(s, s') && Halted(s', s'') ==> Halted(s, s'')
  {
  }

  lemma {:induction false} OnceSubmitted(submitted: seq<Task>, t: Task)
    requires forall i :: 0 <= i < |submitted| ==> submitted[i].ticket == i
    ensures multiset(submitted)[t] <= 1
    ensures t in submitted ==> t.ticket < |submitted| && submitted[t.ticket] == t
  {
    if submitted != [] {
      var n := |submitted| - 1;
      OnceSubmitted(submitted[..n], t);
      assert submitted == submitted[..n] + [submitted[n]];
    }
  }

  // ---------- What the invariant says of any reachable state ----------

  // With no live processor nothing waits, unless one was broken: every submission has been
  // executed exactly once, timed out or not, and then every future is settled.
  lemma AllExecutedExactlyUnlessBroken(s: Snapshot)
    requires Invariant(s) && s.processors == []
    ensures multiset(s.submitted) == multiset(s.executed) <==> s.broken.None?
    ensures s.broken.None? ==> forall n :: n in s.futures ==> s.futures[n] != Waiting
    ensures s.broken.Some? ==> s.broken.value in s.submitted && !(s.futures[s.broken.value.ticket].Done?)
  {
    if s.broken.Some? {
      var t := s.broken.value;
      UnderwayWasSubmitted(s.submitted, s.pending, t, s.executed);
      OnceSubmitted(s.submitted, t);
      assert multiset(s.submitted)[t] == multiset(s.pending)[t] + multiset([t])[t] + multiset(s.executed)[t];
      assert t !in multiset(s.executed);
    } else {
      assert multiset(s.submitted) == multiset(s.executed);
      forall n | n in s.futures
        ensures s.futures[n] != Waiting
      {
        var t := s.submitted[n];
        assert t in multiset(s.submitted);
        assert t in multiset(s.executed);
        assert t in s.executed && t.ticket == n;
      }
    }
  }

  // A task that started later with a smaller id was not queued when the earlier one started.
  lemma OvertakenOnlyIfLate(s: Snapshot, i: nat, j: nat)
    requires Invariant(s) && i < j < |s.starts| && s.starts[j].task.seqId < s.starts[i].task.seqId
    ensures s.starts[j].task !in s.starts[i].queue
  {
    assert LeastFirst(s.starts[i]);
  }
}
