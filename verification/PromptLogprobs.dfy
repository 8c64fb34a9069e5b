// Prompt log-probabilities gathered chunk by chunk during prefill, in the two forms
// kept for different vLLM versions (src/tuft/backends/vllm_worker.py).
module PromptLogprobs {
  import opened Wrappers

  // Causal model: the hidden state at a position, and the entry gathered for a target
  // token from that state, an optional temperature and the number of alternatives kept.
  datatype Model = Model(hidden: (seq<int>, nat) -> int, gather: (int, Option<real>, int, nat) -> int)

  type Buffer = seq<Option<int>>

  datatype Request = Request(tokens: Option<seq<int>>, temperature: real, computed: nat, buffer: Option<Buffer>)

  // PATCH: logits are divided by temperatures that are not practically zero.
  function ScaleOf(t: real): Option<real> {
    if t >= 0.00001 then Some(t) else None
  }

  // Slot s is about prompt token s + 1, predicted from position s.
  function SlotValue(m: Model, r: Request, k: nat, s: nat): int
    requires r.tokens.Some? && s + 1 < |r.tokens.value|
  {
    m.gather(m.hidden(r.tokens.value, s), ScaleOf(r.temperature), r.tokens.value[s + 1], k)
  }

  function Least(a: int, b: int): int {
    if a < b then a else b
  }

  // Everything computed so far is in place.
  ghost predicate Right(m: Model, r: Request, k: nat) {
    r.tokens.Some? ==>
      var n := |r.tokens.value|;
      && n >= 1
      && (r.computed > 0 ==> r.buffer.Some?)
      && (r.buffer.Some? ==>
            && |r.buffer.value| == n - 1
            && forall s: nat :: s < Least(r.computed, n - 1) ==> r.buffer.value[s] == Some(SlotValue(m, r, k, s)))
  }

  // The rows of hidden states the runner is given for this request's chunk.
  ghost predicate Rows(m: Model, r: Request, num: nat, rows: seq<int>) {
    r.tokens.Some? ==> |rows| == num && forall j: nat :: j < num ==> rows[j] == m.hidden(r.tokens.value, r.computed + j)
  }

  function EmptySlots(n: nat): Buffer {
    seq(n, _ => None)
  }

  // Rows actually used: the chunk, cut where the prompt has no further token to predict.
  function NumLogits(n: int, computed: int, num: int): int {
    if num <= n - (computed + 1) then num else n - (computed + 1)
  }

  function ChunkValues(m: Model, r: Request, k: nat, rows: seq<int>, count: nat): seq<Option<int>>
    requires r.tokens.Some? && r.computed + count < |r.tokens.value| && count <= |rows|
  {
    seq(count, j requires 0 <= j < count => Some(m.gather(rows[j], ScaleOf(r.temperature), r.tokens.value[r.computed + 1 + j], k)))
  }

  // The in-progress buffer after the chunk has been copied in.
  function StepBuffer(m: Model, r: Request, k: nat, num: nat, rows: seq<int>): Buffer
    requires r.tokens.Some? && Right(m, r, k) && |rows| == num
  {
    var n := |r.tokens.value|;
    var before := if r.buffer.Some? then r.buffer.value else EmptySlots(n - 1);
    var count := NumLogits(n, r.computed, num);
    if count <= 0 then before
    else before[..r.computed] + ChunkValues(m, r, k, rows, count) + before[r.computed + count..]
  }

  // Only the chunk's own slots change, and everything computed so far is then right.
  lemma StepBufferRight(m: Model, r: Request, k: nat, num: nat, rows: seq<int>)
    requires r.tokens.Some? && Right(m, r, k) && Rows(m, r, num, rows)
    ensures Right(m, r.(computed := r.computed + num, buffer := Some(StepBuffer(m, r, k, num, rows))), k)
    ensures var buffer := StepBuffer(m, r, k, num, rows);
            forall s: nat :: s < |buffer| && !(r.computed <= s < r.computed + num) ==>
                               buffer[s] == if r.buffer.Some? then r.buffer.value[s] else None
  {
    var n := |r.tokens.value|;
    var buffer := StepBuffer(m, r, k, num, rows);
    var r' := r.(computed := r.computed + num, buffer := Some(buffer));
    forall s: nat | s < Least(r'.computed, n - 1)
      ensures buffer[s] == Some(SlotValue(m, r', k, s))
    {
      if s >= r.computed {
        var j: nat := s - r.computed;
        assert rows[j] == m.hidden(r.tokens.value, r.computed + j);
      }
    }
  }

  // The body of the loop for one scheduled request, with its in-progress buffer.
  method ProcessChunk(m: Model, r: Request, k: nat, num: nat, rows: seq<int>) returns (buffer: Buffer, done: bool)
    requires r.tokens.Some? && Right(m, r, k) && |rows| == num
    ensures done <==> r.computed + num >= |r.tokens.value|
    ensures buffer == StepBuffer(m, r, k, num, rows)
  {
    var tokens := r.tokens.value;
    var n := |tokens|;
    buffer := if r.buffer.Some? then r.buffer.value else EmptySlots(n - 1);
    var startTok := r.computed + 1;
    var remaining := n - startTok;
    var numLogits;
    if num <= remaining {
      numLogits, done := num, false;
    } else {
      numLogits, done := remaining, true;
    }
    if numLogits <= 0 {
      return;
    }
    var scale := ScaleOf(r.temperature);
    var values := seq(numLogits, j requires 0 <= j < numLogits => Some(m.gather(rows[j], scale, tokens[startTok + j], k)));
    assert values == ChunkValues(m, r, k, rows, numLogits);
    buffer := buffer[..r.computed] + values + buffer[r.computed + numLogits..];
  }

  // At completion every slot holds its own token's value.
  lemma CompleteBufferIsRight(m: Model, r: Request, k: nat, buffer: Buffer)
    requires r.tokens.Some? && Right(m, r.(buffer := Some(buffer)), k) && r.computed >= |r.tokens.value|
    ensures |buffer| == |r.tokens.value| - 1
    ensures forall s: nat :: s < |buffer| ==> buffer[s] == Some(SlotValue(m, r, k, s))
  {
    var r' := r.(buffer := Some(buffer));
    forall s: nat | s < |buffer|
      ensures buffer[s] == Some(SlotValue(m, r, k, s))
    {
      assert r'.buffer.value[s] == Some(SlotValue(m, r', k, s));
    }
  }

  // ---------- Tiling ----------

  function Range(from: int, len: int): seq<int> {
    if len <= 0 then [] else seq(len, j => from + j)
  }

  lemma RangeSplit(from: int, a: int, b: int)
    requires a >= 0 && b >= 0
    ensures Range(from, a) + Range(from + a, b) == Range(from, a + b)
  {
    if b == 0 {
      assert Range(from, a) + [] == Range(from, a);
    }
  }

  // Slots written by a schedule of chunk sizes from a starting position; a skipped step is no chunk.
  function Written(n: int, computed: nat, chunks: seq<nat>): seq<int>
    decreases |chunks|
  {
    if chunks == [] then []
    else Range(computed, NumLogits(n, computed, chunks[0])) + Written(n, computed + chunks[0], chunks[1..])
  }

  function Total(chunks: seq<nat>): nat {
    if chunks == [] then 0 else chunks[0] + Total(chunks[1..])
  }

  // However the prompt is cut, its slots are written once each, in order.
  lemma {:induction false} ChunksTileSlots(n: nat, computed: nat, chunks: seq<nat>)
    requires n >= 1 && computed <= n - 1
    ensures Written(n, computed, chunks) == Range(computed, Least(computed + Total(chunks), n - 1) - computed)
    decreases |chunks|
  {
    if chunks != [] {
      var num, rest := chunks[0], chunks[1..];
      if computed + num <= n - 1 {
        ChunksTileSlots(n, computed + num, rest);
        TileNext(n, computed, num, Total(rest), Written(n, computed + num, rest));
      } else {
        WrittenPastEnd(n, computed + num, rest);
        TileLast(n, computed, num);
      }
    }
  }

  lemma TileNext(n: nat, computed: nat, num: nat, more: nat, written: seq<int>)
    requires computed + num <= n - 1 && written == Range(computed + num, Least(computed + num + more, n - 1) - (computed + num))
    ensures Range(computed, NumLogits(n, computed, num)) + written == Range(computed, Least(computed + (num + more), n - 1) - computed)
  {
    RangeSplit(computed, num, Least(computed + num + more, n - 1) - (computed + num));
  }

  lemma TileLast(n: nat, computed: nat, num: nat)
    requires computed <= n - 1 < computed + num
    ensures Range(computed, NumLogits(n, computed, num)) + [] == Range(computed, n - 1 - computed)
  {
  }

  lemma {:induction false} WrittenPastEnd(n: nat, computed: nat, chunks: seq<nat>)
    requires n >= 1 && computed >= n - 1
    ensures Written(n, computed, chunks) == []
    decreases |chunks|
  {
    if chunks != [] {
      WrittenPastEnd(n, computed + chunks[0], chunks[1..]);
    }
  }

  // ---------- One step over all requests ----------

  type Requests = map<string, Request>

  ghost predicate AllRight(m: Model, wanted: map<string, nat>, requests: Requests) {
    forall id :: id in wanted ==> id in requests && Right(m, requests[id], wanted[id])
  }

  ghost predicate AllRows(m: Model, wanted: map<string, nat>, requests: Requests, scheduled: map<string, nat>, rows: map<string, seq<int>>) {
    forall id :: id in wanted && id in scheduled ==> id in rows && id in requests && Rows(m, requests[id], scheduled[id], rows[id])
  }

  // Requests the step works on: wanted, scheduled, and made of tokens.
  predicate Touched(wanted: map<string, nat>, requests: Requests, scheduled: map<string, nat>, id: string) {
    id in wanted && id in scheduled && id in requests && requests[id].tokens.Some?
  }

  predicate FinishesNow(requests: Requests, scheduled: map<string, nat>, id: string)
    requires id in requests && id in scheduled && requests[id].tokens.Some?
  {
    requests[id].computed + scheduled[id] >= |requests[id].tokens.value|
  }

  function After(m: Model, wanted: map<string, nat>, requests: Requests, scheduled: map<string, nat>, rows: map<string, seq<int>>, id: string): Buffer
    requires Touched(wanted, requests, scheduled, id) && id in rows
    requires Right(m, requests[id], wanted[id]) && |rows[id]| == scheduled[id]
  {
    StepBuffer(m, requests[id], wanted[id], scheduled[id], rows[id])
  }

  // The observable result of a step, request by request; `left` have not been visited.
  ghost predicate Stepped(m: Model, wanted: map<string, nat>, requests: Requests, scheduled: map<string, nat>, rows: map<string, seq<int>>,
                          left: set<string>, requests': Requests, out: map<string, Buffer>)
    requires AllRight(m, wanted, requests) && AllRows(m, wanted, requests, scheduled, rows)
  {
    && requests'.Keys == requests.Keys
    && (forall id :: id in out <==> Touched(wanted, requests, scheduled, id) && id !in left && FinishesNow(requests, scheduled, id))
    && (forall id :: id in out ==> out[id] == After(m, wanted, requests, scheduled, rows, id))
    && (forall id :: id in requests ==>
                       requests'[id] == if Touched(wanted, requests, scheduled, id) && id !in left
                                        then requests[id].(buffer := Some(After(m, wanted, requests, scheduled, rows, id)))
                                        else requests[id])
  }

  lemma VisitStep(m: Model, wanted: map<string, nat>, requests: Requests, scheduled: map<string, nat>, rows: map<string, seq<int>>,
                  left: set<string>, now: Requests, out: map<string, Buffer>, id: string, buffer: Buffer, done: bool)
    requires AllRight(m, wanted, requests) && AllRows(m, wanted, requests, scheduled, rows)
    requires Stepped(m, wanted, requests, scheduled, rows, left, now, out) && id in left && Touched(wanted, requests, scheduled, id)
    requires buffer == After(m, wanted, requests, scheduled, rows, id) && (done <==> FinishesNow(requests, scheduled, id))
    ensures now[id] == requests[id]
    ensures Stepped(m, wanted, requests, scheduled, rows, left - {id}, now[id := requests[id].(buffer := Some(buffer))],
                    if done then out[id := buffer] else out)
  {
  }

  lemma SkipStep(m: Model, wanted: map<string, nat>, requests: Requests, scheduled: map<string, nat>, rows: map<string, seq<int>>,
                 left: set<string>, now: Requests, out: map<string, Buffer>, id: string)
    requires AllRight(m, wanted, requests) && AllRows(m, wanted, requests, scheduled, rows)
    requires Stepped(m, wanted, requests, scheduled, rows, left, now, out) && id in left && !Touched(wanted, requests, scheduled, id)
    ensures Stepped(m, wanted, requests, scheduled, rows, left - {id}, now, out)
  {
  }

  // in_progress buffers of finished requests are dropped.
  function Dropped(requests: Requests, done: set<string>): Requests {
    map id | id in requests :: if id in done then requests[id].(buffer := None) else requests[id]
  }

  // A whole step as its callers see it.
  ghost predicate StepResult(m: Model, wanted: map<string, nat>, requests: Requests, scheduled: map<string, nat>, rows: map<string, seq<int>>,
                             wanted': map<string, nat>, requests': Requests, out: map<string, Buffer>)
    requires AllRight(m, wanted, requests) && AllRows(m, wanted, requests, scheduled, rows)
  {
    && wanted' == wanted - out.Keys && requests'.Keys == requests.Keys
    && (forall id :: id in out <==> Touched(wanted, requests, scheduled, id) && FinishesNow(requests, scheduled, id))
    && (forall id :: id in out ==> out[id] == After(m, wanted, requests, scheduled, rows, id))
    && (forall id :: id in requests ==>
                       requests'[id] == if Touched(wanted, requests, scheduled, id)
                                        then requests[id].(buffer := if id in out then None else Some(After(m, wanted, requests, scheduled, rows, id)))
                                        else requests[id])
  }

  lemma StepFinished(m: Model, wanted: map<string, nat>, requests: Requests, scheduled: map<string, nat>, rows: map<string, seq<int>>,
                     mid: Requests, out: map<string, Buffer>)
    requires AllRight(m, wanted, requests) && AllRows(m, wanted, requests, scheduled, rows)
    requires Stepped(m, wanted, requests, scheduled, rows, {}, mid, out)
    ensures StepResult(m, wanted, requests, scheduled, rows, wanted - out.Keys, Dropped(mid, out.Keys), out)
  {
  }

  // The form for vLLM 0.21: the buffer hangs on the request.
  class Runner21 {
    var wanted: map<string, nat>
    var requests: Requests

    ghost function View(): Requests
      reads this
    {
      requests
    }

    method Step(m: Model, scheduled: map<string, nat>, rows: map<string, seq<int>>) returns (out: map<string, Buffer>)
      requires AllRight(m, wanted, View()) && AllRows(m, wanted, View(), scheduled, rows)
      modifies this
      ensures StepResult(m, old(wanted), old(View()), scheduled, rows, wanted, View(), out)
    {
      out := map[];
      ghost var before := requests;
      var left := wanted.Keys;
      while left != {}
        invariant left <= wanted.Keys && wanted == old(wanted)
        invariant Stepped(m, wanted, before, scheduled, rows, left, requests, out)
        decreases |left|
      {
        var id :| id in left;
        out := Visit(m, scheduled, rows, id, out, before, left);
        left := left - {id};
      }
      StepFinished(m, wanted, before, scheduled, rows, requests, out);
      wanted := wanted - out.Keys;
      requests := Dropped(requests, out.Keys);
    }

    method Visit(m: Model, scheduled: map<string, nat>, rows: map<string, seq<int>>, id: string, out: map<string, Buffer>,
                 ghost before: Requests, ghost left: set<string>)
      returns (out': map<string, Buffer>)
      requires AllRight(m, wanted, before) && AllRows(m, wanted, before, scheduled, rows)
      requires Stepped(m, wanted, before, scheduled, rows, left, requests, out) && id in left && id in wanted
      modifies this`requests
      ensures Stepped(m, wanted, before, scheduled, rows, left - {id}, requests, out')
    {
      out' := out;
      assert id in before && requests[id] == before[id];
      if id !in scheduled || requests[id].tokens.None? {
        SkipStep(m, wanted, before, scheduled, rows, left, requests, out, id);
        return;
      }
      var r := requests[id];
      var buffer, done := ProcessChunk(m, r, wanted[id], scheduled[id], rows[id]);
      VisitStep(m, wanted, before, scheduled, rows, left, requests, out, id, buffer, done);
      requests := requests[id := r.(buffer := Some(buffer))];
      if done {
        out' := out[id := buffer];
      }
    }

    // vLLM moves every scheduled request on after the step.
    method Advance(scheduled: map<string, nat>)
      modifies this`requests
      ensures View() == Advanced(old(View()), scheduled)
    {
      requests := Advanced(requests, scheduled);
    }

    method Preempt(id: string, to: nat, keep: bool)
      modifies this`requests
      ensures View() == Preempted(old(View()), id, to, keep)
    {
      requests := Preempted(requests, id, to, keep);
    }
  }

  // The form for vLLM 0.12 to 0.15: buffers sit in a dictionary of the input batch.
  class Runner12 {
    var wanted: map<string, nat>
    var requests: Requests
    var inProgress: map<string, Buffer>

    ghost function View(): Requests
      reads this
    {
      Merged(requests, inProgress)
    }

    method Step(m: Model, scheduled: map<string, nat>, rows: map<string, seq<int>>) returns (out: map<string, Buffer>)
      requires AllRight(m, wanted, View()) && AllRows(m, wanted, View(), scheduled, rows)
      modifies this`wanted, this`inProgress
      ensures StepResult(m, old(wanted), old(View()), scheduled, rows, wanted, View(), out)
    {
      out := map[];
      ghost var before := View();
      var left := wanted.Keys;
      while left != {}
        invariant left <= wanted.Keys && wanted == old(wanted)
        invariant Stepped(m, wanted, before, scheduled, rows, left, Merged(requests, inProgress), out)
        decreases |left|
      {
        var id :| id in left;
        out := Visit(m, scheduled, rows, id, out, before, left);
        left := left - {id};
      }
      StepFinished(m, wanted, before, scheduled, rows, Merged(requests, inProgress), out);
      wanted := wanted - out.Keys;
      MergedDrop(requests, inProgress, out.Keys);
      inProgress := inProgress - out.Keys;
    }

    method Visit(m: Model, scheduled: map<string, nat>, rows: map<string, seq<int>>, id: string, out: map<string, Buffer>,
                 ghost before: Requests, ghost left: set<string>)
      returns (out': map<string, Buffer>)
      requires AllRight(m, wanted, before) && AllRows(m, wanted, before, scheduled, rows)
      requires Stepped(m, wanted, before, scheduled, rows, left, Merged(requests, inProgress), out) && id in left && id in wanted
      modifies this`inProgress
      ensures Stepped(m, wanted, before, scheduled, rows, left - {id}, Merged(requests, inProgress), out')
    {
      out' := out;
      assert id in before && Merged(requests, inProgress)[id] == before[id];
      if id !in scheduled || requests[id].tokens.None? {
        SkipStep(m, wanted, before, scheduled, rows, left, Merged(requests, inProgress), out, id);
        return;
      }
      var r := requests[id].(buffer := if id in inProgress then Some(inProgress[id]) else None);
      var buffer, done := ProcessChunk(m, r, wanted[id], scheduled[id], rows[id]);
      VisitStep(m, wanted, before, scheduled, rows, left, Merged(requests, inProgress), out, id, buffer, done);
      MergedUpdate(requests, inProgress, id, buffer);
      inProgress := inProgress[id := buffer];
      if done {
        out' := out[id := buffer];
      }
    }

    method Advance(scheduled: map<string, nat>)
      modifies this`requests
      ensures View() == Advanced(old(View()), scheduled)
    {
      requests := Advanced(requests, scheduled);
    }

    method Preempt(id: string, to: nat, keep: bool)
      modifies this`requests, this`inProgress
      ensures View() == Preempted(old(View()), id, to, keep)
    {
      if id in requests && MayPreempt(requests[id], to, keep) {
        requests := requests[id := requests[id].(computed := to)];
        if !keep {
          inProgress := inProgress - {id};
        }
      }
    }
  }

  function Merged(requests: Requests, inProgress: map<string, Buffer>): Requests {
    map id | id in requests :: requests[id].(buffer := if id in inProgress then Some(inProgress[id]) else None)
  }

  lemma MergedUpdate(requests: Requests, inProgress: map<string, Buffer>, id: string, buffer: Buffer)
    requires id in requests
    ensures Merged(requests, inProgress[id := buffer]) == Merged(requests, inProgress)[id := requests[id].(buffer := Some(buffer))]
  {
  }

  lemma MergedDrop(requests: Requests, inProgress: map<string, Buffer>, done: set<string>)
    ensures Merged(requests, inProgress - done) == Dropped(Merged(requests, inProgress), done)
  {
  }

  function Advanced(requests: Requests, scheduled: map<string, nat>): Requests {
    map id | id in requests :: if id in scheduled then requests[id].(computed := requests[id].computed + scheduled[id]) else requests[id]
  }

  // Preemption sends a request back; its buffer is kept, or dropped when it starts anew.
  predicate MayPreempt(r: Request, to: nat, keep: bool) {
    to <= r.computed && (keep || to == 0)
  }

  function Preempted(requests: Requests, id: string, to: nat, keep: bool): Requests {
    if id in requests && MayPreempt(requests[id], to, keep)
    then requests[id := requests[id].(computed := to, buffer := if keep then requests[id].buffer else None)]
    else requests
  }

  // ---------- Whole runs ----------

  // The two forms store buffers in different places, so a preemption may drop one and keep the other.
  datatype Event = Chunk(scheduled: map<string, nat>) | Preemption(id: string, to: nat, keep21: bool, keep12: bool)

  // Requests that differ in their buffers only.
  ghost predicate AlikeButBuffers(a: Requests, b: Requests) {
    a.Keys == b.Keys && forall id :: id in a ==> b[id] == a[id].(buffer := b[id].buffer)
  }

  // The preemption treats both forms' buffers alike.
  predicate Even(e: Event) {
    e.Preemption? ==> e.keep21 == e.keep12
  }

  function RowsFor(m: Model, requests: Requests, scheduled: map<string, nat>): map<string, seq<int>> {
    map id | id in scheduled && id in requests :: RowsOf(m, requests[id], scheduled[id])
  }

  function RowsOf(m: Model, r: Request, num: nat): seq<int> {
    if r.tokens.None? then [] else seq(num, j requires 0 <= j => m.hidden(r.tokens.value, r.computed + j))
  }

  lemma RowsForAll(m: Model, wanted: map<string, nat>, requests: Requests, scheduled: map<string, nat>)
    requires AllRight(m, wanted, requests)
    ensures AllRows(m, wanted, requests, scheduled, RowsFor(m, requests, scheduled))
  {
  }

  // A finished request's answer: one value per prompt token but the first, each its own.
  ghost predicate Complete(m: Model, r: Request, k: nat, buffer: Buffer) {
    && r.tokens.Some? && |buffer| == |r.tokens.value| - 1
    && forall s: nat :: s < |buffer| ==> buffer[s] == Some(SlotValue(m, r, k, s))
  }

  // A step keeps every unfinished request right, and answers exactly the requests whose
  // prompt it reaches the end of.
  lemma StepKeepsRight(m: Model, wanted: map<string, nat>, requests: Requests, scheduled: map<string, nat>, rows: map<string, seq<int>>,
                       wanted': map<string, nat>, requests': Requests, out: map<string, Buffer>)
    requires AllRight(m, wanted, requests) && AllRows(m, wanted, requests, scheduled, rows)
    requires StepResult(m, wanted, requests, scheduled, rows, wanted', requests', out)
    ensures AllRight(m, wanted', Advanced(requests', scheduled))
    ensures forall id :: id in out ==> Complete(m, requests[id], wanted[id], out[id])
  {
    forall id | id in wanted && Touched(wanted, requests, scheduled, id)
      ensures Right(m, requests[id].(computed := requests[id].computed + scheduled[id],
                                     buffer := Some(After(m, wanted, requests, scheduled, rows, id))), wanted[id])
      ensures id in out ==> Complete(m, requests[id], wanted[id], out[id])
    {
      StepBufferRight(m, requests[id], wanted[id], scheduled[id], rows[id]);
      if id in out {
        CompleteBufferIsRight(m, requests[id].(computed := requests[id].computed + scheduled[id]), wanted[id], out[id]);
      }
    }
    UnfinishedStayRight(m, wanted, requests, scheduled, rows, wanted', requests', out);
  }

  lemma UnfinishedStayRight(m: Model, wanted: map<string, nat>, requests: Requests, scheduled: map<string, nat>, rows: map<string, seq<int>>,
                            wanted': map<string, nat>, requests': Requests, out: map<string, Buffer>)
    requires AllRight(m, wanted, requests) && AllRows(m, wanted, requests, scheduled, rows)
    requires StepResult(m, wanted, requests, scheduled, rows, wanted', requests', out)
    ensures AllRight(m, wanted', Advanced(requests', scheduled))
  {
    forall id | id in wanted'
      ensures id in Advanced(requests', scheduled) && Right(m, Advanced(requests', scheduled)[id], wanted'[id])
    {
      if Touched(wanted, requests, scheduled, id) {
        StepBufferRight(m, requests[id], wanted[id], scheduled[id], rows[id]);
      }
    }
  }

  // What is left below the new position of a preempted request is still right.
  lemma PreemptionKeepsRight(m: Model, r: Request, k: nat, to: nat, keep: bool)
    requires Right(m, r, k) && MayPreempt(r, to, keep)
    ensures Right(m, r.(computed := to, buffer := if keep then r.buffer else None), k)
  {
  }

  lemma PreemptedStayRight(m: Model, wanted: map<string, nat>, requests: Requests, id: string, to: nat, keep: bool)
    requires AllRight(m, wanted, requests)
    ensures AllRight(m, wanted, Preempted(requests, id, to, keep)) && SamePrompts(requests, Preempted(requests, id, to, keep))
  {
    if id in wanted && MayPreempt(requests[id], to, keep) {
      PreemptionKeepsRight(m, requests[id], wanted[id], to, keep);
    }
  }

  // Both forms give the same answers and are left in the same state.
  lemma StepDetermined(m: Model, wanted: map<string, nat>, requests: Requests, scheduled: map<string, nat>, rows: map<string, seq<int>>,
                       w1: map<string, nat>, r1: Requests, o1: map<string, Buffer>, w2: map<string, nat>, r2: Requests, o2: map<string, Buffer>)
    requires AllRight(m, wanted, requests) && AllRows(m, wanted, requests, scheduled, rows)
    requires StepResult(m, wanted, requests, scheduled, rows, w1, r1, o1)
    requires StepResult(m, wanted, requests, scheduled, rows, w2, r2, o2)
    ensures w1 == w2 && r1 == r2 && o1 == o2
  {
    assert o1 == o2;
  }

  // The prompts and temperatures never change.
  ghost predicate SamePrompts(a: Requests, b: Requests) {
    a.Keys == b.Keys && forall id :: id in a ==> b[id].tokens == a[id].tokens && b[id].temperature == a[id].temperature
  }

  ghost predicate AllComplete(m: Model, wanted: map<string, nat>, requests: Requests, out: map<string, Buffer>) {
    forall id :: id in out ==> id in requests && id in wanted && Complete(m, requests[id], wanted[id], out[id])
  }

  // ---------- What a whole run answers, by the events alone ----------

  // How far a request has come: chunks move it on, preemptions send it back.
  function Position(computed: nat, events: seq<Event>, id: string): nat {
    if events == [] then computed
    else
      var before := Position(computed, events[..|events| - 1], id);
      match events[|events| - 1]
      case Chunk(scheduled) => if id in scheduled then before + scheduled[id] else before
      case Preemption(who, to, keep21, keep12) =>
        if who == id && to <= before && ((keep21 && keep12) || to == 0) then to else before
  }

  // The i-th event ends this prompt, which no earlier one has.
  ghost predicate EndsPrompt(r: Request, events: seq<Event>, id: string, i: nat)
    requires i < |events|
  {
    && Reaches(r, events, id, i)
    && forall j :: 0 <= j < i ==> !Reaches(r, events, id, j)
  }

  // The i-th event is a chunk of this prompt that takes it to its end.
  ghost predicate Reaches(r: Request, events: seq<Event>, id: string, i: nat)
    requires i < |events|
  {
    && r.tokens.Some? && events[i].Chunk? && id in events[i].scheduled
    && Position(r.computed, events[..i], id) + events[i].scheduled[id] >= |r.tokens.value|
  }

  ghost predicate AtPositions(start: Requests, events: seq<Event>, now: Requests) {
    now.Keys == start.Keys && forall id :: id in start ==> now[id].computed == Position(start[id].computed, events, id)
  }

  // Exactly the wanted requests whose prompt the event ends are answered.
  ghost predicate AnswersAt(wanted: map<string, nat>, start: Requests, events: seq<Event>, i: nat, out: map<string, Buffer>)
    requires i < |events|
  {
    forall id :: id in out <==> id in wanted && id in start && EndsPrompt(start[id], events, id, i)
  }

  // What the two forms have in common: the same requests are wanted and stand at the same
  // positions, each form's buffers are right, and the buffers are the same if all preemptions
  // so far treated them alike.
  ghost predicate InCommon(m: Model, new21: Runner21, old12: Runner12, even: bool)
    reads new21, old12
  {
    && new21.wanted == old12.wanted
    && AllRight(m, new21.wanted, new21.View()) && AllRight(m, new21.wanted, old12.View())
    && AlikeButBuffers(new21.View(), old12.View())
    && (even ==> new21.View() == old12.View())
  }

  // Over any schedule of chunks and preemptions both forms answer each request at most once,
  // in the same step, with the complete values of the prompt it started with, and still want
  // exactly the others.
  method RunBoth(new21: Runner21, old12: Runner12, m: Model, events: seq<Event>)
    returns (outs21: seq<map<string, Buffer>>, outs12: seq<map<string, Buffer>>)
    requires new21.wanted == old12.wanted && new21.View() == old12.View() && AllRight(m, new21.wanted, new21.View())
    modifies new21, old12
    ensures outs21 == outs12 && |outs21| == |events|
    ensures InCommon(m, new21, old12, forall i :: 0 <= i < |events| ==> Even(events[i]))
    ensures forall i :: 0 <= i < |events| ==> AllComplete(m, old(new21.wanted), old(new21.View()), outs21[i])
    ensures forall i :: 0 <= i < |events| ==> EachValueSaid(m, old(new21.wanted), old(new21.View()), outs21[i])
    ensures forall i, j :: 0 <= i < j < |events| ==> outs21[i].Keys !! outs21[j].Keys
    ensures StillWanted(old(new21.wanted), new21.wanted, outs21)
    ensures forall i :: 0 <= i < |events| ==> AnswersAt(old(new21.wanted), old(new21.View()), events, i, outs21[i])
    ensures AtPositions(old(new21.View()), events, new21.View())
  {
    outs21, outs12 := [], [];
    ghost var wanted, requests, even := new21.wanted, new21.View(), true;
    assert events[..0] == [];
    for i := 0 to |events|
      invariant outs21 == outs12 && |outs21| == i
      invariant InCommon(m, new21, old12, even) && (even <==> forall j :: 0 <= j < i ==> Even(events[j]))
      invariant SoFar(m, wanted, requests, events, outs21, new21.wanted, new21.View())
    {
      ghost var now, view := new21.wanted, new21.View();
      var a, b := EventBoth(new21, old12, m, events[i], even);
      SoFarNext(m, wanted, requests, events, outs21, now, view, new21.View(), a);
      outs21, outs12 := outs21 + [a], outs12 + [b];
      even := even && Even(events[i]);
    }
    assert events[..|events|] == events;
  }

  // What has been answered by the first |outs| events, and where things stand.
  ghost predicate SoFar(m: Model, wanted: map<string, nat>, start: Requests, events: seq<Event>, outs: seq<map<string, Buffer>>,
                        now: map<string, nat>, view: Requests)
  {
    && |outs| <= |events| && SamePrompts(start, view) && StillWanted(wanted, now, outs) && AtPositions(start, events[..|outs|], view)
    && (forall j :: 0 <= j < |outs| ==> AllComplete(m, wanted, start, outs[j]) && EachValueSaid(m, wanted, start, outs[j]))
    && (forall j :: 0 <= j < |outs| ==> AnswersAt(wanted, start, events, j, outs[j]))
    && (forall j, l :: 0 <= j < l < |outs| ==> outs[j].Keys !! outs[l].Keys)
  }

  lemma SoFarNext(m: Model, wanted: map<string, nat>, start: Requests, events: seq<Event>, outs: seq<map<string, Buffer>>,
                  now: map<string, nat>, view: Requests, view': Requests, out: map<string, Buffer>)
    requires SoFar(m, wanted, start, events, outs, now, view) && |outs| < |events|
    requires AllComplete(m, now, view, out) && SamePrompts(view, view')
    requires Moved(events[|outs|], view, view') && AnsweredBy(events[|outs|], now, view, out)
    ensures SoFar(m, wanted, start, events, outs + [out], now - out.Keys, view')
  {
    CompleteFromStart(m, wanted, start, now, view, out, outs);
    CompleteSays(m, wanted, start, out);
    PositionsNext(start, events, |outs|, view, view');
    AnswersNext(wanted, start, events, |outs|, outs, now, view, out);
  }

  // What one event does to the positions.
  ghost predicate Moved(e: Event, before: Requests, after: Requests) {
    && after.Keys == before.Keys
    && forall id :: id in before ==> after[id].computed == Position(before[id].computed, [e], id)
  }

  // The requests one event answers, of those still wanted.
  ghost predicate AnsweredBy(e: Event, wanted: map<string, nat>, requests: Requests, out: map<string, Buffer>) {
    forall id :: id in out <==>
                   && id in wanted && id in requests && requests[id].tokens.Some? && e.Chunk? && id in e.scheduled
                   && requests[id].computed + e.scheduled[id] >= |requests[id].tokens.value|
  }

  lemma PositionsNext(start: Requests, events: seq<Event>, i: nat, view: Requests, view': Requests)
    requires i < |events| && AtPositions(start, events[..i], view) && Moved(events[i], view, view')
    ensures AtPositions(start, events[..i + 1], view')
  {
    var e := events[i];
    assert events[..i + 1][..i] == events[..i] && [e][..0] == [];
    forall id | id in start
      ensures view'[id].computed == Position(start[id].computed, events[..i + 1], id)
    {
      assert Position(view[id].computed, [], id) == view[id].computed;
    }
  }

  lemma AnswersNext(wanted: map<string, nat>, start: Requests, events: seq<Event>, i: nat, outs: seq<map<string, Buffer>>,
                    now: map<string, nat>, view: Requests, out: map<string, Buffer>)
    requires i < |events| && |outs| == i && SamePrompts(start, view) && AtPositions(start, events[..i], view)
    requires forall j :: 0 <= j < i ==> AnswersAt(wanted, start, events, j, outs[j])
    requires StillWanted(wanted, now, outs) && AnsweredBy(events[i], now, view, out)
    ensures AnswersAt(wanted, start, events, i, out)
  {
    forall id
      ensures id in out <==> id in wanted && id in start && EndsPrompt(start[id], events, id, i)
    {
      StillWantedExactly(wanted, start, events, i, outs, now, id);
      if id in start {
        assert Reaches(start[id], events, id, i) <==>
               start[id].tokens.Some? && events[i].Chunk? && id in events[i].scheduled
               && view[id].computed + events[i].scheduled[id] >= |start[id].tokens.value|;
      }
    }
  }

  // A request is still wanted exactly when no event so far has ended its prompt.
  lemma StillWantedExactly(wanted: map<string, nat>, start: Requests, events: seq<Event>, i: nat, outs: seq<map<string, Buffer>>,
                           now: map<string, nat>, id: string)
    requires i <= |events| && |outs| == i && StillWanted(wanted, now, outs)
    requires forall j :: 0 <= j < i ==> AnswersAt(wanted, start, events, j, outs[j])
    ensures id in start ==> (id in now <==> id in wanted && forall j :: 0 <= j < i ==> !Reaches(start[id], events, id, j))
    ensures id in now ==> id in wanted
  {
    assert Wish(now, id) == if exists j :: 0 <= j < |outs| && id in outs[j] then None else Wish(wanted, id);
    if id in start && id in wanted {
      if j :| 0 <= j < |outs| && id in outs[j] {
        assert Reaches(start[id], events, id, j);
      }
      if j :| 0 <= j < i && Reaches(start[id], events, id, j) {
        var first := FirstReach(start[id], events, id, j);
        assert id in outs[first];
      }
    }
  }

  lemma {:induction false} FirstReach(r: Request, events: seq<Event>, id: string, j: nat) returns (first: nat)
    requires j < |events| && Reaches(r, events, id, j)
    ensures first <= j && EndsPrompt(r, events, id, first)
    decreases j
  {
    if k :| 0 <= k < j && Reaches(r, events, id, k) {
      first := FirstReach(r, events, id, k);
    } else {
      first := j;
    }
  }

  // Slot s holds what the model gathers for prompt token s + 1 from the state at position s,
  // under the request's temperature unless that is practically zero.
  ghost predicate EachValueSaid(m: Model, wanted: map<string, nat>, requests: Requests, out: map<string, Buffer>) {
    forall id :: id in out ==>
                   && id in wanted && id in requests && requests[id].tokens.Some?
                   && |out[id]| == |requests[id].tokens.value| - 1
                   && forall s :: 0 <= s < |out[id]| ==> out[id][s] == Some(GatheredAt(m, requests[id].tokens.value, requests[id].temperature, s, wanted[id]))
  }

  function GatheredAt(m: Model, tokens: seq<int>, temperature: real, s: nat, k: nat): int
    requires s + 1 < |tokens|
  {
    if temperature < 0.00001 then m.gather(m.hidden(tokens, s), None, tokens[s + 1], k)
    else m.gather(m.hidden(tokens, s), Some(temperature), tokens[s + 1], k)
  }

  lemma CompleteSays(m: Model, wanted: map<string, nat>, requests: Requests, out: map<string, Buffer>)
    requires AllComplete(m, wanted, requests, out)
    ensures EachValueSaid(m, wanted, requests, out)
  {
    forall id, s: nat | id in out && s < |out[id]|
      ensures s + 1 < |requests[id].tokens.value|
      ensures SlotValue(m, requests[id], wanted[id], s) == GatheredAt(m, requests[id].tokens.value, requests[id].temperature, s, wanted[id])
    {
    }
  }

  ghost predicate StillWanted(before: map<string, nat>, now: map<string, nat>, outs: seq<map<string, Buffer>>) {
    forall id :: Wish(now, id) == if exists j :: 0 <= j < |outs| && id in outs[j] then None else Wish(before, id)
  }

  function Wish(wanted: map<string, nat>, id: string): Option<nat> {
    if id in wanted then Some(wanted[id]) else None
  }

  lemma CompleteFromStart(m: Model, wanted: map<string, nat>, requests: Requests, now: map<string, nat>, view: Requests,
                          out: map<string, Buffer>, outs: seq<map<string, Buffer>>)
    requires SamePrompts(requests, view) && StillWanted(wanted, now, outs) && AllComplete(m, now, view, out)
    ensures AllComplete(m, wanted, requests, out)
    ensures forall j :: 0 <= j < |outs| ==> outs[j].Keys !! out.Keys
    ensures StillWanted(wanted, now - out.Keys, outs + [out])
  {
    forall id | id in out
      ensures id in requests && id in wanted && Complete(m, requests[id], wanted[id], out[id])
      ensures forall j :: 0 <= j < |outs| ==> id !in outs[j]
    {
      assert Wish(now, id) == Some(now[id]);
    }
    var outs' := outs + [out];
    forall id
      ensures Wish(now - out.Keys, id) == if exists j :: 0 <= j < |outs'| && id in outs'[j] then None else Wish(wanted, id)
    {
      assert Wish(now, id) == if exists j :: 0 <= j < |outs| && id in outs[j] then None else Wish(wanted, id);
      if id in out {
        assert id in outs'[|outs|];
      } else if j :| 0 <= j < |outs| && id in outs[j] {
        assert id in outs'[j];
      }
    }
  }

  method EventBoth(new21: Runner21, old12: Runner12, m: Model, e: Event, ghost even: bool) returns (a: map<string, Buffer>, b: map<string, Buffer>)
    requires InCommon(m, new21, old12, even)
    modifies new21, old12
    ensures a == b && InCommon(m, new21, old12, even && Even(e))
    ensures AllComplete(m, old(new21.wanted), old(new21.View()), a)
    ensures new21.wanted == old(new21.wanted) - a.Keys && SamePrompts(old(new21.View()), new21.View())
    ensures Moved(e, old(new21.View()), new21.View()) && AnsweredBy(e, old(new21.wanted), old(new21.View()), a)
  {
    assert [e][..0] == [];
    match e {
      case Chunk(scheduled) =>
        a, b := StepBoth(new21, old12, m, scheduled, even);
      case Preemption(id, to, keep21, keep12) =>
        a, b := map[], map[];
        if (keep21 && keep12) || to == 0 {
          PreemptBoth(new21, old12, m, id, to, keep21, keep12, even);
        }
        assert new21.wanted - a.Keys == new21.wanted;
    }
  }

  method PreemptBoth(new21: Runner21, old12: Runner12, m: Model, id: string, to: nat, keep21: bool, keep12: bool, ghost even: bool)
    requires InCommon(m, new21, old12, even) && ((keep21 && keep12) || to == 0)
    modifies new21, old12
    ensures InCommon(m, new21, old12, even && keep21 == keep12)
    ensures new21.View() == Preempted(old(new21.View()), id, to, keep21) && old12.View() == Preempted(old(old12.View()), id, to, keep12)
    ensures new21.wanted == old(new21.wanted) && SamePrompts(old(new21.View()), new21.View())
  {
    PreemptedStayRight(m, new21.wanted, new21.View(), id, to, keep21);
    PreemptedStayRight(m, new21.wanted, old12.View(), id, to, keep12);
    PreemptedAlike(new21.View(), old12.View(), id, to, keep21, keep12);
    new21.Preempt(id, to, keep21);
    old12.Preempt(id, to, keep12);
  }

  lemma PreemptedAlike(a: Requests, b: Requests, id: string, to: nat, keepA: bool, keepB: bool)
    requires AlikeButBuffers(a, b) && ((keepA && keepB) || to == 0)
    ensures AlikeButBuffers(Preempted(a, id, to, keepA), Preempted(b, id, to, keepB))
  {
  }

  method StepBoth(new21: Runner21, old12: Runner12, m: Model, scheduled: map<string, nat>, ghost even: bool)
    returns (a: map<string, Buffer>, b: map<string, Buffer>)
    requires InCommon(m, new21, old12, even)
    modifies new21, old12
    ensures a == b && InCommon(m, new21, old12, even)
    ensures forall id :: id in a <==> Touched(old(new21.wanted), old(new21.View()), scheduled, id) && FinishesNow(old(new21.View()), scheduled, id)
    ensures AllComplete(m, old(new21.wanted), old(new21.View()), a)
    ensures new21.wanted == old(new21.wanted) - a.Keys && SamePrompts(old(new21.View()), new21.View())
    ensures Moved(Chunk(scheduled), old(new21.View()), new21.View()) && AnsweredBy(Chunk(scheduled), old(new21.wanted), old(new21.View()), a)
  {
    ghost var wanted, r1, r2 := new21.wanted, new21.View(), old12.View();
    var rows21, rows12 := RowsFor(m, new21.requests, scheduled), RowsFor(m, old12.requests, scheduled);
    SameRows(m, old12.requests, r2, scheduled);
    RowsForAll(m, wanted, r1, scheduled);
    RowsForAll(m, wanted, r2, scheduled);
    a := new21.Step(m, scheduled, rows21);
    b := old12.Step(m, scheduled, rows12);
    StepAlike(m, wanted, scheduled, r1, rows21, new21.wanted, new21.View(), a, r2, rows12, old12.wanted, old12.View(), b);
    new21.Advance(scheduled);
    old12.Advance(scheduled);
  }

  // The rows do not depend on the buffers.
  lemma SameRows(m: Model, a: Requests, b: Requests, scheduled: map<string, nat>)
    requires AlikeButBuffers(a, b)
    ensures RowsFor(m, a, scheduled) == RowsFor(m, b, scheduled)
  {
  }

  // A step from states that differ in their buffers only gives the same answers, since a
  // complete answer is determined by its prompt; from equal states it leaves equal states.
  lemma StepAlike(m: Model, wanted: map<string, nat>, scheduled: map<string, nat>,
                  r1: Requests, rows1: map<string, seq<int>>, w1: map<string, nat>, r1': Requests, o1: map<string, Buffer>,
                  r2: Requests, rows2: map<string, seq<int>>, w2: map<string, nat>, r2': Requests, o2: map<string, Buffer>)
    requires AlikeButBuffers(r1, r2)
    requires AllRight(m, wanted, r1) && AllRows(m, wanted, r1, scheduled, rows1) && StepResult(m, wanted, r1, scheduled, rows1, w1, r1', o1)
    requires AllRight(m, wanted, r2) && AllRows(m, wanted, r2, scheduled, rows2) && StepResult(m, wanted, r2, scheduled, rows2, w2, r2', o2)
    requires rows1 == RowsFor(m, r1, scheduled) && rows2 == RowsFor(m, r2, scheduled)
    ensures o1 == o2 && w1 == w2 && AlikeButBuffers(Advanced(r1', scheduled), Advanced(r2', scheduled))
    ensures r1 == r2 ==> r1' == r2'
    ensures AllRight(m, w1, Advanced(r1', scheduled)) && AllRight(m, w2, Advanced(r2', scheduled))
    ensures AllComplete(m, wanted, r1, o1) && SamePrompts(r1, Advanced(r1', scheduled)) && Answered(wanted, r1, scheduled, o1)
    ensures Moved(Chunk(scheduled), r1, Advanced(r1', scheduled)) && AnsweredBy(Chunk(scheduled), wanted, r1, o1)
  {
    StepSays(wanted, scheduled, r1, r1', o1);
    StepAnswers(m, wanted, scheduled, r1, rows1, w1, r1', o1);
    StepAnswers(m, wanted, scheduled, r2, rows2, w2, r2', o2);
    AnswersAlike(m, wanted, scheduled, r1, o1, r2, o2);
    AlikeAdvanced(r1, r2, Advanced(r1', scheduled), Advanced(r2', scheduled), scheduled);
    if r1 == r2 {
      StepDetermined(m, wanted, r1, scheduled, rows1, w1, r1', o1, w2, r2', o2);
    }
  }

  lemma StepSays(wanted: map<string, nat>, scheduled: map<string, nat>, requests: Requests, requests': Requests, out: map<string, Buffer>)
    ensures AlikeButBuffers(Advanced(requests, scheduled), Advanced(requests', scheduled)) ==>
              Moved(Chunk(scheduled), requests, Advanced(requests', scheduled))
    ensures Answered(wanted, requests, scheduled, out) ==> AnsweredBy(Chunk(scheduled), wanted, requests, out)
  {
    assert [Chunk(scheduled)][..0] == [];
  }

  ghost predicate Answered(wanted: map<string, nat>, requests: Requests, scheduled: map<string, nat>, out: map<string, Buffer>) {
    forall id :: id in out <==> Touched(wanted, requests, scheduled, id) && FinishesNow(requests, scheduled, id)
  }

  // What one step leaves, but for the buffers.
  lemma StepAnswers(m: Model, wanted: map<string, nat>, scheduled: map<string, nat>,
                    requests: Requests, rows: map<string, seq<int>>, wanted': map<string, nat>, requests': Requests, out: map<string, Buffer>)
    requires AllRight(m, wanted, requests) && AllRows(m, wanted, requests, scheduled, rows)
    requires StepResult(m, wanted, requests, scheduled, rows, wanted', requests', out)
    ensures Answered(wanted, requests, scheduled, out) && AllComplete(m, wanted, requests, out) && wanted' == wanted - out.Keys
    ensures AllRight(m, wanted', Advanced(requests', scheduled)) && SamePrompts(requests, Advanced(requests', scheduled))
    ensures AlikeButBuffers(Advanced(requests, scheduled), Advanced(requests', scheduled))
  {
    StepKeepsRight(m, wanted, requests, scheduled, rows, wanted', requests', out);
  }

  lemma AlikeAdvanced(a: Requests, b: Requests, a': Requests, b': Requests, scheduled: map<string, nat>)
    requires AlikeButBuffers(a, b)
    requires AlikeButBuffers(Advanced(a, scheduled), a') && AlikeButBuffers(Advanced(b, scheduled), b')
    ensures AlikeButBuffers(a', b')
  {
  }

  lemma AnswersAlike(m: Model, wanted: map<string, nat>, scheduled: map<string, nat>, r1: Requests, o1: map<string, Buffer>,
                     r2: Requests, o2: map<string, Buffer>)
    requires AlikeButBuffers(r1, r2)
    requires Answered(wanted, r1, scheduled, o1) && AllComplete(m, wanted, r1, o1)
    requires Answered(wanted, r2, scheduled, o2) && AllComplete(m, wanted, r2, o2)
    ensures o1 == o2
  {
    forall id
      ensures id in o1 <==> id in o2
    {
      assert Touched(wanted, r1, scheduled, id) <==> Touched(wanted, r2, scheduled, id);
    }
    forall id | id in o1
      ensures id in o2 && o1[id] == o2[id]
    {
      SameAnswer(m, r1[id], r2[id], wanted[id], o1[id], o2[id]);
    }
  }

  lemma SameAnswer(m: Model, a: Request, b: Request, k: nat, x: Buffer, y: Buffer)
    requires b == a.(buffer := b.buffer) && Complete(m, a, k, x) && Complete(m, b, k, y)
    ensures x == y
  {
    forall s: nat | s < |x|
      ensures x[s] == y[s]
    {
      assert SlotValue(m, a, k, s) == SlotValue(m, b, k, s);
    }
  }
}
